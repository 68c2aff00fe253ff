/** Preserving the Tailscale identity before a Sandbox is closed (lifecycle.go, tailscale.go): when it is captured,
    in what order it is captured and stored, and that the stopped service is restarted when the close does not
    happen. */
module TailscaleDown {
  import opened Common
  import opened Phases
  import opened Provisioning
  import opened CaptureDecision

  datatype Event = ServiceStopped | Captured | Stored | CloseRequested | RestartAttempted | RecordRemoved

  datatype StopResult = Stopped | AlreadyGone | StopFailed

  datatype DownResult = Done | DownError

  /** How the calls of one `down` end: the Sandbox is still the owned one, the capture works or at least stops the
      service, it is of the expected Windows user, it is stored; what stopping the process reports, and whether the
      Sandbox is still there when that failed; whether other Sandboxes are seen; and the removal of the record. */
  datatype Calls = Calls(
    owned: bool, captured: bool, stops: bool, sameUser: bool, stored: bool, stop: StopResult, still: bool,
    unmanaged: bool, removed: bool)

  /** The identity, whether a stored one is there or not, is captured and stored. */
  predicate Recovers(identityStored: Option<bool>, calls: Calls) {
    identityStored.Some? && calls.captured && calls.stored && (identityStored.value ==> calls.sameUser)
  }

  /** The decision leads to a close request. */
  predicate Closes(decision: Decision, identityStored: Option<bool>, calls: Calls) {
    decision == Skip || (decision == Capture && calls.owned && Recovers(identityStored, calls))
  }

  class Closing {
    var alive: bool
    ghost var events: seq<Event>

    constructor (alive: bool)
      ensures this.alive == alive && events == []
    {
      this.alive := alive;
      events := [];
    }

    /** restartTailscaleAfterFailedDown, whether or not it succeeds. */
    method Restart()
      modifies this`events
      ensures events == old(events) + [RestartAttempted]
    {
      events := events + [RestartAttempted];
    }

    /** recoverAndStoreTailscaleForDown; `identityStored` is None when the stored identity cannot be read. The capture
        for `down` stops the service, even when it fails later on. */
    method RecoverAndStore(identityStored: Option<bool>, calls: Calls) returns (ok: bool, serviceStopped: bool)
      requires events == []
      modifies this`events
      ensures ok == Recovers(identityStored, calls) && serviceStopped == (ok && identityStored.value)
      ensures ok ==> events == if serviceStopped then [ServiceStopped, Captured, Stored] else [Captured, Stored]
      ensures !ok ==> Stored !in events && CloseRequested !in events && RecordRemoved !in events
      ensures !ok && identityStored != Some(true) ==> ServiceStopped !in events && RestartAttempted !in events
      // a capture that failed after all is followed by a restart, last
      ensures !ok && identityStored == Some(true) ==> events != [] && events[|events| - 1] == RestartAttempted
      ensures !ok && identityStored == Some(true) && (calls.captured || calls.stops) ==> ServiceStopped in events
    {
      ok, serviceStopped := false, false;
      if identityStored.None? {
        return;
      }
      if !identityStored.value {
        if calls.captured {
          events := events + [Captured];
          if calls.stored {
            events := events + [Stored];
            ok := true;
          }
        }
        return;
      }
      if calls.captured || calls.stops {
        events := events + [ServiceStopped];
      }
      if !calls.captured {
        Restart();
        return;
      }
      events := events + [Captured];
      if !calls.sameUser {
        Restart();
        return;
      }
      if !calls.stored {
        Restart();
        return;
      }
      events := events + [Stored];
      ok, serviceStopped := true, true;
    }

    /** stopOwnedSandboxProcess. On an error the Sandbox may be alive or not. */
    method Stop(calls: Calls) returns (result: StopResult)
      modifies this
      ensures events == old(events) + [CloseRequested] && result == calls.stop
      ensures alive == (old(alive) && result == StopFailed && calls.still)
    {
      events := events + [CloseRequested];
      result := calls.stop;
      if result == StopFailed {
        alive := alive && calls.still;
      } else {
        alive := false;
      }
    }

    /** From the close request on. */
    method StopAndRemove(serviceStopped: bool, calls: Calls) returns (result: DownResult)
      modifies this
      ensures result == Done <==>
        calls.removed && (calls.stop == StopResult.Stopped || (calls.stop == AlreadyGone && !calls.unmanaged))
      ensures alive == (old(alive) && calls.stop == StopFailed && calls.still)
      ensures events == old(events) + [CloseRequested] + AfterClose(serviceStopped && calls.stop == StopFailed, result)
    {
      var stop := Stop(calls);
      if stop == StopFailed {
        if serviceStopped {
          Restart();
        }
        return DownError;
      }
      if stop == AlreadyGone && calls.unmanaged {
        return DownError;
      }
      if !calls.removed {
        return DownError;
      }
      events := events + [RecordRemoved];
      return Done;
    }

    /** downAtWithExecutable from the decision on; the active record exists. */
    method Close(decision: Decision, identityStored: Option<bool>, calls: Calls) returns (result: DownResult)
      requires events == []
      modifies this
      // a close is requested exactly when the decision allows it, and a capture is stored first
      ensures CloseRequested in events <==> Closes(decision, identityStored, calls)
      ensures decision == Capture ==> StoredBeforeClose(events)
      // the answer, and what is left
      ensures result == Done <==>
        (&& Closes(decision, identityStored, calls) && calls.removed
         && (calls.stop == StopResult.Stopped || (calls.stop == AlreadyGone && !calls.unmanaged)))
      ensures RecordRemoved in events <==> result == Done
      ensures alive == (old(alive) && (Closes(decision, identityStored, calls) ==>
        calls.stop == StopFailed && calls.still))
      // the service is only ever stopped for a capture; a restart comes last, whenever the close does not happen
      ensures decision != Capture ==> ServiceStopped !in events && RestartAttempted !in events
      ensures result == DownError && alive && ServiceStopped in events ==> events[|events| - 1] == RestartAttempted
      ensures result == Done ==> RestartAttempted !in events
    {
      var serviceStopped := false;
      if decision == Refuse || decision == Unreadable {
        return DownError;
      }
      if decision == Capture {
        if !calls.owned {
          return DownError;
        }
        var ok;
        ok, serviceStopped := RecoverAndStore(identityStored, calls);
        if !ok {
          return DownError;
        }
      }
      ghost var before := events;
      result := StopAndRemove(serviceStopped, calls);
      if decision == Capture {
        assert before[|before| - 1] == Stored;
        StoredFirst(before, AfterClose(serviceStopped && calls.stop == StopFailed, result));
      }
    }
  }

  /** What may follow a close request: the restart of the service, or the removal of the record. */
  function AfterClose(restarted: bool, result: DownResult): seq<Event> {
    if restarted then [RestartAttempted] else if result == Done then [RecordRemoved] else []
  }

  /** Every close request comes after a stored capture. */
  ghost predicate StoredBeforeClose(events: seq<Event>) {
    forall k :: 0 <= k < |events| && events[k] == CloseRequested ==> Stored in events[..k]
  }

  lemma StoredFirst(before: seq<Event>, after: seq<Event>)
    requires Stored in before && CloseRequested !in after && CloseRequested !in before
    ensures StoredBeforeClose(before + [CloseRequested] + after)
  {
    var events := before + [CloseRequested] + after;
    forall k | 0 <= k < |events| && events[k] == CloseRequested ensures Stored in events[..k] {
      assert k == |before|;
      assert events[..k] == before;
    }
  }

  // ---------------------------------------------------------------- a whole `down`

  /** The session files are readable, agree with the run directory, and the guest has published a connection. */
  predicate Settled(files: StatusFiles, ready: bool) {
    && !Bad(files.failed) && (files.failed == Absent ==> !Bad(files.ready))
    && files.connectable == Good && (files.ready == Good <==> ready)
  }

  /** The files of a guest that has published a connection, and perhaps a failure. */
  function Published(failed: bool, ready: bool): (files: StatusFiles)
    ensures Settled(files, ready)
  {
    StatusFiles(if failed then Good else Absent, if ready then Good else Absent, Good, Good)
  }

  function OperationOf(record: Option<Record>): OperationRead {
    if record.Some? then Found(record.value) else NoOperation
  }

  /** The decision of a `down` that reads these files: it reconciles the operation first. None when that fails. */
  method DownDecides(directory: RunDirectory, files: StatusFiles) returns (decision: Option<Decision>)
    requires directory.RepairIsSafe() && directory.TouchIsRecorded() && Settled(files, directory.ready)
    modifies directory`record
    ensures directory.RepairIsSafe() && directory.TouchIsRecorded()
    ensures decision.Some? ==> !(directory.record.Some? && directory.record.value.state == Running)
    ensures decision.Some? ==> decision.value == Capture || decision.value == Skip
    ensures decision.Some? ==>
      (decision.value == Capture <==>
        (files.failed == Absent && files.ready == Good) || !NotYetTouched(OperationOf(directory.record)))
    ensures decision.Some? && directory.record != old(directory.record) ==>
      directory.record.Some? && !PrecedesIdentity(directory.record.value.phase)
    ensures !(old(directory.record).Some? && old(directory.record).value.state == Running) ==>
      decision.Some? && directory.record == old(directory.record)
  {
    var reconciled := directory.Reconcile();
    if reconciled != Fine {
      return None;
    }
    var operation := OperationOf(directory.record);
    CaptureIff(files, operation);
    return Some(Decide(true, files, files, operation));
  }

  /** downAtWithExecutable for a Sandbox that takes part in Tailscale. */
  method Down(directory: RunDirectory, files: StatusFiles, closing: Closing, identityStored: Option<bool>, calls: Calls)
    returns (result: DownResult, decision: Option<Decision>)
    requires directory.RepairIsSafe() && directory.TouchIsRecorded() && Settled(files, directory.ready)
    requires closing.events == []
    modifies directory`record, closing
    ensures directory.TouchIsRecorded()
    ensures decision.None? ==> result == DownError && closing.events == []
    ensures decision.Some? ==>
      (decision.value == Skip <==>
        !(files.failed == Absent && files.ready == Good) && NotYetTouched(OperationOf(directory.record)))
    ensures decision.Some? && old(directory.record).Some? && !PrecedesIdentity(old(directory.record).value.phase) ==>
      decision.value != Skip
    ensures !(old(directory.record).Some? && old(directory.record).value.state == Running) ==>
      decision.Some? && directory.record == old(directory.record)
    ensures decision.Some? ==>
      (CloseRequested in closing.events <==>
        decision.value == Skip || (decision.value == Capture && calls.owned && Recovers(identityStored, calls)))
    ensures decision.Some? && calls.stop == StopResult.Stopped && calls.removed ==>
      (result == Done <==> CloseRequested in closing.events)
    ensures CloseRequested in closing.events && !StoredBeforeClose(closing.events) ==> decision == Some(Skip)
    ensures RecordRemoved in closing.events <==> result == Done
    ensures result == Done ==> !closing.alive
    ensures result == DownError && closing.alive && ServiceStopped in closing.events ==>
      closing.events[|closing.events| - 1] == RestartAttempted
  {
    decision := DownDecides(directory, files);
    if decision.None? {
      return DownError, decision;
    }
    result := closing.Close(decision.value, identityStored, calls);
  }

  /** Within one operation the identity cannot be hidden: once the operation has touched it, even if it crashed later, a
      `down` after it requests no close before the identity has been captured and stored. */
  method TouchedIsCaptured(directory: RunDirectory, repairReady: bool, plan: Plan, failed: bool, closing: Closing,
                           identityStored: Option<bool>, calls: Calls)
    returns (result: DownResult)
    requires (repairReady ==> directory.ready) && directory.RepairIsSafe() && directory.TouchIsRecorded()
    requires !(directory.record.Some? && directory.record.value.state == Running)
    requires closing.events == []
    modifies directory, closing
    ensures directory.touched && CloseRequested in closing.events ==>
      StoredBeforeClose(closing.events) && calls.owned && Recovers(identityStored, calls)
    ensures result == Done ==> !closing.alive
  {
    ghost var ended;
    var r;
    r, ended := directory.ProvisionSession(directory.ready, repairReady, plan);
    var decision;
    result, decision := Down(directory, Published(failed, directory.ready), closing, identityStored, calls);
  }

  /** Over any number of `up` runs, an identity that some operation on the Sandbox touched is passed over exactly
      when the session is not ready and the last recorded phase precedes the identity; the last operation then has
      not touched it. */
  method UpsThenDown(directory: RunDirectory, requests: seq<Request>, failed: bool, closing: Closing,
                     identityStored: Option<bool>, calls: Calls)
    returns (result: DownResult, decision: Option<Decision>)
    requires directory.RepairIsSafe() && directory.TouchIsRecorded() && directory.LastTouchShows()
    requires closing.events == []
    modifies directory, closing
    ensures decision.Some? && directory.everTouched ==>
      (decision.value == Skip <==>
        !(directory.ready && !failed) && directory.record.Some? && PrecedesIdentity(directory.record.value.phase))
    ensures decision == Some(Skip) ==> !directory.touched
    ensures CloseRequested in closing.events && !StoredBeforeClose(closing.events) ==> decision == Some(Skip)
  {
    Ups(directory, requests);
    result, decision := Down(directory, Published(failed, directory.ready), closing, identityStored, calls);
  }

  /** The phases of the host's own steps up to the tools precede the identity. */
  lemma EarlyPhases(mode: Mode, plan: Plan, step: Step, phase: Phase)
    requires step in ToolSteps(mode, plan) && step != ProvisionGuest && RunsUnder(step, phase)
    ensures PrecedesIdentity(phase)
  {
    if step in AwaitSteps(mode) {
    } else if step in CONNECTION_STEPS {
    } else {
      assert step in EarlySteps(mode, plan);
    }
  }

  /** A fresh `up` that fails in a step that is known, and the `down` after it: the identity is captured exactly when
      the operation got as far as the identity. Where the guest's own provisioning fails, its last phase decides. */
  method FailedUpThenDown(directory: RunDirectory, plan: Plan, files: StatusFiles) returns (decision: Option<Decision>)
    requires directory.RepairIsSafe() && directory.TouchIsRecorded() && directory.LastTouchShows()
    requires directory.Stops(PlannedSteps(Fresh, plan)) && plan.tailscale && Settled(files, false)
    modifies directory
    ensures decision == Some(Capture) || decision == Some(Skip)
    ensures directory.touched <==> !old(directory.Stops(ToolSteps(Fresh, plan)))
    ensures decision == Some(Capture) <==>
      directory.touched || (old(directory.forecast).fails.value == ProvisionGuest &&
        !PrecedesIdentity(LastGuestPhase(old(directory.forecast).report.progress)))
  {
    var r, resumed, repaired, launched := directory.Up(SessionState.Stopped, false, false, plan);
    if directory.Stops(ToolSteps(Fresh, plan)) && directory.forecast.fails.value != ProvisionGuest {
      EarlyPhases(Fresh, plan, directory.forecast.fails.value, directory.record.value.phase);
    }
    decision := DownDecides(directory, files);
  }

  const BARE := Plan(false, false, true, false)

  /** This does happen: a first `up` touches the identity and fails in the step after it, the next one fails in its
      first step, and a `down` passes over the identity. */
  method IdentityPassedOver() returns (directory: RunDirectory, decision: Option<Decision>)
    ensures fresh(directory) && directory.everTouched && decision == Some(Skip)
  {
    directory := new RunDirectory();
    directory.forecast := Given(Some(SyncConfiguration), Report([], false, false));
    var r, resumed, repaired, launched := directory.Up(SessionState.Stopped, false, false, BARE);
    assert SyncConfiguration in PlannedSteps(Fresh, BARE) && SyncConfiguration !in ToolSteps(Fresh, BARE);
    directory.forecast := Given(Some(WaitConnectable), Report([], false, false));
    r, resumed, repaired, launched := directory.Up(SessionState.Connectable, false, false, BARE);
    assert WaitConnectable in ToolSteps(Fresh, BARE);
    decision := DownDecides(directory, StatusFiles(Absent, Absent, Good, Absent));
  }
}
