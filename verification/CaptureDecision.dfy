/** Whether `down` captures the Tailscale identity before it closes the Sandbox (lifecycle.go). */
module CaptureDecision {
  import opened Common
  import opened Phases

  /** Not there, not readable, readable but not valid, or valid. */
  datatype StatusFile = Absent | Broken | Invalid | Good
  /** failed.json, ready.json, connectable.json and progress.json of the run. */
  datatype StatusFiles =
    StatusFiles(failed: StatusFile, ready: StatusFile, connectable: StatusFile, progress: StatusFile)

  /** classifyManagedSession: the first file found decides; one that is not valid is an error. */
  function Classify(files: StatusFiles): Option<SessionState> {
    if files.failed != Absent then Valid(files.failed, Failed)
    else if files.ready != Absent then Valid(files.ready, Ready)
    else if files.connectable != Absent then Valid(files.connectable, Connectable)
    else if files.progress != Absent then Valid(files.progress, Starting)
    else Some(Starting)
  }

  function Valid(file: StatusFile, state: SessionState): Option<SessionState> {
    if file == Good then Some(state) else None
  }

  /** operation.json of the run: missing, not readable or of another run, or a record. */
  datatype OperationRead = NoOperation | BadOperation | Found(record: Record)

  datatype Decision = Capture | Skip | Refuse | Unreadable

  function HostPhase(operation: OperationRead): Phase
    requires operation != BadOperation
  {
    if operation.Found? then operation.record.phase else Bootstrap
  }

  /** The capture decision of downAtWithExecutable; `later` is what the guest has published by the second look. */
  function Decide(tailscale: bool, files: StatusFiles, later: StatusFiles, operation: OperationRead): Decision {
    if !tailscale then Skip
    else
      match Classify(files)
      case None => Unreadable
      case Some(Ready) => if later.ready == Good then Capture else Unreadable
      case Some(Starting) =>
        // here the file is not validated
        if later.connectable == Broken then Unreadable else if later.connectable != Absent then Refuse else Skip
      case Some(_) =>
        if operation == BadOperation then Unreadable
        else if PrecedesIdentity(HostPhase(operation)) then Skip
        else if later.connectable == Absent then Skip
        else if later.connectable == Good then Capture else Unreadable
  }

  /** The operation's record says that the identity has not been touched, or there is none. */
  predicate NotYetTouched(operation: OperationRead) {
    operation == NoOperation || (operation.Found? && PrecedesIdentity(operation.record.phase))
  }

  /** What decides, read off the files. A ready Sandbox is captured whatever its last operation was; a failed or merely
      connectable one is by its operation; one that is still starting is never captured. */
  lemma DecidedByFiles(files: StatusFiles, later: StatusFiles, operation: OperationRead)
    ensures Decide(false, files, later, operation) == Skip
    ensures files.failed == Absent && files.ready == Good && later.ready == Good ==>
      Decide(true, files, later, operation) == Capture
    ensures files.failed == Good || (files.failed == files.ready == Absent && files.connectable == Good) ==>
      var decision := Decide(true, files, later, operation);
      && (decision == Capture <==> operation.Found? && !NotYetTouched(operation) && later.connectable == Good)
      && (operation == BadOperation ==> decision == Unreadable)
      && (NotYetTouched(operation) ==> decision == Skip)
      && (operation.Found? && !NotYetTouched(operation) && later.connectable == Absent ==> decision == Skip)
    ensures files.failed == files.ready == files.connectable == Absent && files.progress in {Absent, Good} ==>
      var decision := Decide(true, files, later, operation);
      && (decision == Skip <==> later.connectable == Absent)
      && (decision == Refuse <==> later.connectable in {Good, Invalid})
      && decision != Capture
    ensures Bad(files.failed) ==> Decide(true, files, later, operation) == Unreadable
    ensures files.failed == Absent && Bad(files.ready) ==> Decide(true, files, later, operation) == Unreadable
    ensures files.failed == files.ready == Absent && Bad(files.connectable) ==>
      Decide(true, files, later, operation) == Unreadable
    ensures files.failed == files.ready == files.connectable == Absent && Bad(files.progress) ==>
      Decide(true, files, later, operation) == Unreadable
    ensures files.failed == Absent && files.ready == Good && later.ready != Good ==>
      Decide(true, files, later, operation) == Unreadable
  {
  }

  predicate Bad(file: StatusFile) {
    file == Broken || file == Invalid
  }

  /** With readable files that do not change, and a connection record: the identity is captured exactly when the Sandbox
      is ready or its operation has got as far as the identity. */
  lemma CaptureIff(files: StatusFiles, operation: OperationRead)
    requires !Bad(files.failed) && (files.failed == Absent ==> !Bad(files.ready))
    requires files.connectable == Good && operation != BadOperation
    ensures Decide(true, files, files, operation) == Capture
       <==> (files.failed == Absent && files.ready == Good) || !NotYetTouched(operation)
    ensures Decide(true, files, files, operation) in [Capture, Skip]
  {
    DecidedByFiles(files, files, operation);
  }
}
