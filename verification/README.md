# Herdr Sandbox: verified model

Dafny models of the logic in `internal/sandbox` and `internal/hiddenprocess` that can be separated from Windows and
the disk, with proofs of what that logic is relied on for. `dafny verify dfyconfig.toml` checks everything.

- **The lifecycle protocol** (`Lifecycle`): several `sandbox` processes that share one named mutex, `active.json` and one
  `operation.json` per run directory. Every read, write, removal, lock operation, process exit and crash is a step of
  its own, and a run is any interleaving of them. The safety argument that the program keeps in a comment is an
  inductive invariant here; from it follow that reconciliation never interrupts a live operation, that the records of a
  live Sandbox are never removed, and that the reader that takes no lock sees one moment, although it makes six reads.
  `Repair` says exactly when the records can be cleared again, and by what. `Undisturbed` says what a command does when
  nothing else happens beside it, and how the reader without the lock answers.
- **The commands of that protocol, in their own imperative form**: the mutex calls (`LifecycleLock`), the operation file
  (`Operations`, `OperationDisk`), both shown to take steps of the protocol only (`CommandSteps`), one automatic cleanup
  (`Cleanup`), one `up` with its provisioning phases (`Phases`, `Provisioning`), and the preservation of the Tailscale
  identity before a close (`CaptureDecision`, `TailscaleDown`).
- **The Job Object owner** (`JobObject`): a failed start as the calls it makes, and `Wait`, the context watcher and any
  number of outside `Terminate` calls as interleaved steps: what holds in every interleaving, and what each of the three
  comes to when it runs alone.
- **Plan algebra**: the merge of tool requirements (`ToolPlan`), the renderer and its overlap checks (`PathMapping`,
  `WorkspaceManifest`, `PhysicalFolders`), and the comparison of launch configurations (`LaunchCommand`, `LaunchDifference`).
- **Text codecs**: Windows argument quoting against the Microsoft C argument rules (`CommandLine`), the managed SSH
  include (`SshInclude`), the list of phone keys (`AuthorizedKeys`, `Base64`; section 5 of RFC 4251, section 4 of RFC
  8709, section 4 of RFC 4648), the message sanitiser and the diagnostic truncation (`TerminalText`; section 3 of RFC
  3629), and the signed browser session (`Cookies`).
- `Common`, `CaseFold`, `Ordering` and `Search` hold what these share: results, permutations, ASCII case folding, string
  order, and Go's substring functions.

Each loop or updating method of the program is a method here, proved against a specification function or predicate;
the lemmas are about those specifications. A choice that the program does not control (an exit code, a crash, another
program's edit) is a parameter or a nondeterministic value, so a contract holds for every such choice; where it is a
parameter, the contract says which answer belongs to which choice.

## Where the code does less than one would expect

- The records cannot always be cleared by running a command again. A crash or an error between removing the active run's
  directory and removing `active.json` leaves a record that every later `up`, `down`, `clean`, `status` and `attach` fails
  on, for good (`Lifecycle.StuckIff`, `Lifecycle.StuckForever`; `Repair.CleanupCannotAlwaysBeRepeated` gives a run). Only
  uninstalling, which does not reconcile and is not modelled, clears it then. Every other reachable state has a way
  back (`Repair.ClearableIffNotStuck`), but commands alone find it only if no Sandbox is alive that `active.json` does not
  name (`Repair.CommandsClearIff`), and one `clean` only if none is alive at all (`Repair.OneCleanClearsIff`). So an `up`
  that crashes between starting a Sandbox and writing `active.json` keeps every command from clearing anything until
  that Sandbox has ended by itself (`Repair.UnrecordedIff`, `Repair.CrashedLaunchBlocks`).
- Rendering does not check the guest folders of the workspaces, so it accepts one inside another or inside the tool's own
  (`PathMapping.RenderedNotOneToOne`); `PathMapping.RenderedOneToOneIff` says exactly when paths translate one to one. The
  manifest of the workspaces demands folders with which they do (`WorkspaceManifest.ListedTranslate`).
- A message can be sanitised and then refused by the validator: exactly when the byte limit cuts right after a space
  (`TerminalText.SanitizedMessageValidIff`, `TerminalText.UnwritableMessage`). Start, update and finish then fail, and a
  finish that fails leaves a running record behind.
- The SSH include rewriter is not idempotent on every config it accepts. A block in the middle of a line can leave a
  marker behind (`SshInclude.RewriteInsideALineFails`); it does so exactly when the texts around it make a marker between
  them (`SshInclude.UserTextMarkedIff`), which a block at the beginning of a line rules out.
- The user's SSH config is compared and then replaced. An edit that another program makes between the two is lost, and no
  other is (`SshInclude.UserConfig.Install`).
- A failed start that can neither end its target nor close the job around it leaves the target alive and waits for it
  without end (`JobObject.LeftBehind`, in the contract of `JobObject.Command.Start`); a target that never joined the job
  stays suspended then.
- The phase that decides whether `down` captures the Tailscale identity is that of the last operation only. Over any number
  of `up` runs an identity that was touched is passed over exactly when the session is not ready and the last recorded
  phase precedes the identity (`TailscaleDown.UpsThenDown`), and two failing `up` runs lead there
  (`TailscaleDown.IdentityPassedOver`). Within one operation it cannot be hidden (`TailscaleDown.TouchedIsCaptured`), and
  after one fresh `up` the decision is right for every step in which it can fail, but for the guest's own provisioning,
  whose last phase decides (`TailscaleDown.FailedUpThenDown`).

## Model

| member | source | states |
|---|---|---|
| Lifecycle.StepKeepsInv | internal/sandbox/session_status.go:169-203 | Every step of every process, crashes included, keeps the protocol invariant: one mutex holder, running records owned by it or abandoned, identities fresh. |
| Lifecycle.RunKeepsInv | internal/sandbox/lifecycle_lock_windows.go:44-45 | The invariant holds in every run, where an abandoned mutex counts as acquired. |
| Lifecycle.RefusalsUnreachable | internal/sandbox/operation.go:50-55 | In no run does `up` reach the "still marked running" refusal after reconciling, nor cleanup its "exhausted" error. |
| Lifecycle.ReconciliationSparesLiveOperations | internal/sandbox/session_status.go:169-203 | When reconciliation writes, no process anywhere works on any operation, and the record it replaces was marked running. |
| Lifecycle.RunningRecordOwnedOrAbandoned | internal/sandbox/session_status.go:189-203 | The owner of a running record holds the lock; without an owner the record only ever changes to interrupted. |
| Lifecycle.LiveSandboxKeepsItsRecords | internal/sandbox/lifecycle.go:570-632 | No step of any process removes the session record or the run directory of a Sandbox that is alive. |
| Lifecycle.ActiveUnbroken | internal/sandbox/session_status.go:210-239 | A session record naming one run at two moments of a run was there, unchanged, all the time between them. |
| Lifecycle.RunningUnbroken | internal/sandbox/session_status.go:218-243 | A record marked running under one id at two moments was marked running under it all the time between them. |
| Lifecycle.LockFreeReadIsAtomic | internal/sandbox/session_status.go:205-248 | If the lock-free reader succeeds, there are six moments at which it read such that the session record stayed the same throughout and the operation stayed running from the second to the last; what the inspection in between reports, though it reads the record by itself, is of that session, and says whether its Sandbox was alive at that moment. That it does succeed is `Undisturbed.ReaderReports`. |
| Undisturbed.ReaderReports | internal/sandbox/session_status.go:205-248 | Of every reachable world with an operation running on the active session: when a `status` or `attach` gives up waiting for the mutex, six reads with nothing in between report that session, its running operation, and whether its Sandbox is alive. |
| Undisturbed.ReaderRefuses | internal/sandbox/session_status.go:210-224 | Without a session record, or without a running operation, the same reads end without an answer. |
| Undisturbed.OthersGiveUp | internal/sandbox/lifecycle.go:284-293 | `up`, `down` and `clean` end when they give up waiting. |
| Lifecycle.StuckForever | internal/sandbox/operation.go:158-172 | Once active.json names a run directory that is gone, no later command of any kind gets past reconciliation. |
| Lifecycle.StuckIff | internal/sandbox/lifecycle.go:618-627 | A run gets stuck exactly by a crash or error of cleanup between removing the active run's directory and removing active.json. |
| Repair.ClearableIffNotStuck | internal/sandbox/lifecycle.go:570-632 | A reachable world, whatever crashed in it, has a continuation that clears all records exactly when it is not stuck. |
| Repair.CommandsClearIff | internal/sandbox/lifecycle.go:410-516 | With the mutex not held, commands alone can clear the records exactly when they are clear, or active.json does not dangle and no Sandbox is alive but the one it names. |
| Repair.OneCleanClearsIff | internal/sandbox/lifecycle.go:570-632 | One `clean` can clear the records exactly when they are clear, or active.json does not dangle and no Sandbox is alive. |
| Repair.CleanCompletes | internal/sandbox/lifecycle.go:570-632 | From every world without a dangling active.json and with the mutex not held, one undisturbed `clean`, `status` or `attach` comes to its end and leaves nothing of a Sandbox that is gone, the session of one that is alive, and everything when a Sandbox is alive that active.json does not name. |
| Repair.DownCompletes | internal/sandbox/lifecycle.go:410-516 | From every such world one undisturbed `down` comes to its end: the Sandbox that active.json names has been ended and its record is gone; the record of a Sandbox that is gone is removed only when none is alive; nothing else changes. |
| Undisturbed.UpResumes | internal/sandbox/session.go:216-293 | An undisturbed `up` on a session whose Sandbox is alive runs one operation on its run, whose outcome is then its record; nothing else changes. |
| Undisturbed.UpLaunches | internal/sandbox/session.go:202-293 | An undisturbed `up` without a session record and without a Sandbox makes a run directory, starts a Sandbox, records both, and runs one operation on the run. |
| Undisturbed.UpRefuses | internal/sandbox/session.go:236-270 | While the recorded Sandbox is gone, or one is alive that no record names, no `up`, however it goes, begins an operation, makes a run directory or starts a Sandbox. |
| Undisturbed.DownSparesRuns | internal/sandbox/lifecycle.go:410-516 | However an undisturbed `down` goes, crashing or not, it removes no run directory, ends no Sandbox but the recorded one, and drops the record only when that Sandbox was alive or none is. |
| Undisturbed.CleanRetries | internal/sandbox/lifecycle.go:600-629 | When the recorded Sandbox ends between the two inspections, the cleanup plans again and removes everything. |
| Undisturbed.OwnerWritesOutcome | internal/sandbox/operation.go:91-104 | A process stops working on an operation only by writing its outcome, or by a crash. |
| Repair.CleanSparesLiveSandboxes | internal/sandbox/lifecycle.go:570-632 | However a `clean` runs while a Sandbox is alive, it keeps the session record and the run that record names; it removes nothing when a Sandbox is alive that the record does not name. |
| Repair.BlockedAfter | internal/sandbox/lifecycle.go:638-695 | While such a Sandbox is alive, no command of any kind, crashing or not, adds or removes a run directory. |
| Repair.UnrecordedIff | internal/sandbox/session.go:864-879 | A Sandbox comes to be alive without a record exactly by being started by hand, by a crash between its start and the writing of active.json, or by an error there after which ending it fails too. |
| Repair.CrashedLaunchBlocks | internal/sandbox/session.go:868-874 | A concrete run: after such a crash the world is not stuck, and yet no command can clear it before the Sandbox has ended by itself. |
| Repair.CleanupCannotAlwaysBeRepeated | internal/sandbox/lifecycle.go:618-627 | A concrete run reaches a stuck world, so cleanup cannot always be run again. |
| LifecycleLock.AwaitedIff | internal/sandbox/lifecycle_lock_windows.go:37-72 | The mutex is acquired exactly when the first wait that does more than time out finds it free or abandoned. |
| LifecycleLock.Mutex.Acquire | internal/sandbox/lifecycle_lock_windows.go:24-74 | Every failure unlocks the thread once and closes an opened handle once, without releasing; success holds one open handle. |
| LifecycleLock.Mutex.Release | internal/sandbox/lifecycle_lock_windows.go:46-59 | The release is carried out once, and fails exactly when one of its calls does; later calls repeat its answer. |
| LifecycleLock.ReleaseRepeatedly | internal/sandbox/lifecycle_lock_windows.go:46-59 | Any number of release calls releases, closes and unlocks once in all, and every one answers how that went. |
| OperationDisk.OperationFile.Write | internal/sandbox/operation.go:121-156 | An invalid record never reaches the disk; a failed write leaves the old or the new record. |
| OperationDisk.OperationFile.Start | internal/sandbox/operation.go:50-76 | A start refuses a record that is still running, and otherwise writes the started record. |
| OperationDisk.OperationFile.Update | internal/sandbox/operation.go:78-89 | An update refuses a terminal operation, and otherwise writes the operation with its new phase and a later stamp. |
| OperationDisk.OperationFile.Finish | internal/sandbox/operation.go:91-104 | A finish refuses a terminal operation, and otherwise writes the terminal record. |
| OperationDisk.OperationFile.InterruptAbandoned | internal/sandbox/session_status.go:189-203 | Only a running record of the same run is replaced, by its interrupted form; after success no running record is left. |
| CommandSteps.AcquisitionIsAStep | internal/sandbox/lifecycle_lock_windows.go:37-72 | The mutex calls take one step of the protocol: what they acquire was free or abandoned at the wait that decides, and held at every wait before it. |
| CommandSteps.ReconcileSteps | internal/sandbox/session_status.go:189-203 | Reconciling a run is one read of the protocol and, for a running record, one write; the written record is always valid, so only the disk or a foreign record stops it. |
| CommandSteps.RunOperation | internal/sandbox/operation.go:50-104 | A whole operation with its deferred finish, whichever of its writes fail or are refused, is a sequence of protocol steps from its start to the release, with the file as the run's record; so it keeps the protocol invariant. It succeeds exactly when its first and its last record can be written and are, whatever becomes of the updates, and its outcome is then the one given. |
| Operations.NextTimestamp | internal/sandbox/operation.go:296-302 | The next stamp is later than the previous one even if the clock went back. |
| Operations.HistoryStrictlyIncreases | internal/sandbox/operation.go:50-104 | Whatever the clock does, the stamps of one operation strictly increase, its identity and start stay, and only its last record is terminal. |
| Operations.HistorySaysWhatIsGiven | internal/sandbox/operation.go:78-104 | Every record of an operation after the first has the phase and the sanitised message given for it, and the last one the state given. |
| Operations.StartedSaysWhatIsGiven | internal/sandbox/operation.go:50-76 | The first record of an operation is running, with the ids, the phase, the sanitised message and the start that were given. |
| Operations.FinishWritableIff | internal/sandbox/operation.go:231-262 | A final record can be written exactly when its phase name is well formed and its message was not cut right after a space. |
| Operations.ValidIff | internal/sandbox/operation.go:215-262 | What the validator accepts, spelled out: a name of 64 characters at most, a sanitised message, ordered times, and an end exactly when the operation is over. |
| Operations.InterruptedRecordIsValid | internal/sandbox/operation.go:106-109 | The interrupted form of a valid running record is always accepted by the validator. |
| TerminalText.NormaliseShape | internal/sandbox/operation.go:272-279 | The normal form has no unsafe rune, no leading, doubled or final space. |
| TerminalText.SanitizeShape | internal/sandbox/operation.go:272-285 | A sanitised message is the longest rune-aligned prefix of the normal form within the byte limit. |
| TerminalText.SanitizeFixedIff | internal/sandbox/operation.go:234 | Sanitising again changes nothing exactly when the result does not end in a space. |
| TerminalText.SanitizeTwiceFixed | internal/sandbox/operation.go:272-285 | Two applications reach a fixed point for every message and limit. |
| TerminalText.SanitizeEndsInSpaceIff | internal/sandbox/operation.go:280-283 | The final space appears exactly when the normal form is cut right after a space. |
| TerminalText.SanitizedMessageValidIff | internal/sandbox/operation.go:234 | The validator accepts a sanitised message exactly when the cut left no final space. |
| TerminalText.UnwritableMessage | internal/sandbox/operation.go:264-285 | A concrete message that start, update and finish sanitise and then refuse to write. |
| TerminalText.LastRune | internal/sandbox/operation.go:287-294 | On valid text the last rune's size is found from its bytes alone. |
| TerminalText.SanitizeTerminalText | internal/sandbox/operation.go:272-285 | The shrinking loop computes the sanitised text. |
| TerminalText.MarkerLength | internal/sandbox/host.go:140-141 | The marker leaves room for content whatever the number of its digits. |
| TerminalText.HeadEnd | internal/sandbox/host.go:142-145 | The head is cut at the last rune start within its share. |
| TerminalText.TailStart | internal/sandbox/host.go:146-149 | The tail is cut at the first rune start from its place on. |
| TerminalText.BoundedText | internal/sandbox/host.go:127-151 | A long diagnostic becomes a prefix, the marker and a suffix of the text, both as long as their shares allow, cut on runes, not overlapping, 2000 bytes at most. |
| TerminalText.DiagnosticShape | internal/sandbox/host.go:127-136 | The cleaned diagnostic has only newlines, tabs, printable and replacement characters, and no space at its ends. |
| TerminalText.UnixNewlinesJoin | internal/sandbox/host.go:127-129 | Each two-character line ending becomes a newline, and the texts around it are treated alike. |
| TerminalText.RuneDecodes | internal/sandbox/operation.go:280-294 | A rune can be read back from its UTF-8 bytes, which are no more than it needs. |
| JobObject.Command.Start | internal/hiddenprocess/command_windows.go:73-134 | A start succeeds exactly when every call works, in one fixed order, with the target running in its job; a failed one leaves one of six call sequences, and the target alive exactly when the call that is to end it fails and closing the job does not end it. |
| JobObject.FailedStartReleasesEverything | internal/hiddenprocess/command_windows.go:73-134 | After a failed start every handle is closed exactly once and not used afterwards, the target never ran outside the job, and a created target is told to end and waited for. |
| JobObject.StartPublishes | internal/hiddenprocess/command_windows.go:120-134 | A successful start publishes a job that is open and runs, and its watcher; only one is published. |
| JobObject.StepKeepsInv | internal/hiddenprocess/command_windows.go:138-211 | Every step of `Wait`, the watcher and any number of outside `Terminate` calls keeps the invariant. |
| JobObject.ClosedExactlyOnce | internal/hiddenprocess/command_windows.go:206-211 | In every interleaving CloseHandle is called at most once on the job, and exactly once when `Wait` has returned; the handle is open then exactly if that call failed, and something that ran in the job is left exactly if ending the job failed as well. |
| JobObject.HandleUsedOnlyWhileOpen | internal/hiddenprocess/command_windows.go:170-187 | The handle is only ever terminated or closed while it is open. |
| JobObject.CancellationTerminates | internal/hiddenprocess/command_windows.go:189-204 | In every interleaving a cancellation is recorded only if the context has ended, and then it ends the job: until the process is reaped, the watcher is inside Terminate or termination is over, and once the watcher has returned, something is left in the job only if TerminateJobObject and CloseHandle both failed. |
| JobObject.TerminateTerminates | internal/hiddenprocess/command_windows.go:170-187 | An outside Terminate that returns has ended what ran in the job, unless both calls failed. |
| JobObject.ReapSettlesCancellation | internal/hiddenprocess/command_windows.go:151-157 | What `Wait` reports of the context is whether it had ended when the process was reaped, and stays so. |
| JobObject.WatcherEndsJob | internal/hiddenprocess/command_windows.go:189-204 | From every reachable state with the job not terminated, the end of the context and the watcher's own steps end what runs in the job, by the close if the termination fails, and the watcher returns. |
| JobObject.OutsideTerminate | internal/hiddenprocess/command_windows.go:170-187 | A Terminate on a started job that nobody else terminates ends what runs in it within a fixed number of steps, by the close if the termination fails; before the start it is refused. |
| JobObject.WaitReturns | internal/hiddenprocess/command_windows.go:138-168 | Once the process has exited, a first `Wait` that finds the watcher done returns within a fixed number of steps with the job terminated and closed; a second one, or one before the start, is refused. |
| JobObject.WaitNeverDeadlocks | internal/hiddenprocess/command_windows.go:138-168 | While `Wait` has not returned and the process has exited, the waiter or a goroutine it waits for can move. |
| Cleanup.ValidateOwnership | internal/sandbox/lifecycle.go:665-695 | Accepted exactly when nothing runs, or the owned launcher with at most its own client and no other Sandbox. |
| Cleanup.InspectProtection | internal/sandbox/lifecycle.go:638-663 | An inspection answers exactly what the process listing shows: the owned tree and only that, or nothing at all; anything else is refused. |
| Cleanup.DataRoot.Clean | internal/sandbox/lifecycle.go:570-632 | The answer follows from what the inspections see and which calls fail: refused exactly when the last inspection is; changed exactly when the last two differ and that is no observed exit of the owned Sandbox; an observed exit leads to a third inspection; cleaned exactly when two inspections agree and every removal works, with the number of directories removed. Deletions only under two equal inspections, in their order, never of a live Sandbox's run; "exhausted" is never returned. |
| Cleanup.DataRoot.Attempt | internal/sandbox/lifecycle.go:581-629 | One attempt: what it answers, or the protection under which the next one plans. |
| Cleanup.DataRoot.Plan | internal/sandbox/lifecycle.go:706-785 | The candidates are the run directories but the protected one, each once. |
| Cleanup.DataRoot.RemoveRuns | internal/sandbox/lifecycle.go:787-828 | A prefix of the candidates is removed and counted, and all of them exactly when every removal works. |
| Cleanup.DataRoot.RemovePlanned | internal/sandbox/lifecycle.go:608-629 | With the Sandbox gone, the SSH config goes first and the session record last, after every run directory; success exactly when every call works. |
| Provisioning.RunDirectory.Up | internal/sandbox/session.go:202-293 | Over any `up`, with failures and crashes anywhere, a final record that allows a repair lies beside a ready.json. It resumes exactly when a Sandbox it can go on with has an unfinished operation and no refresh is asked for, and repairs exactly when that session is ready and its phase allows it. Success means that every step planned for its mode was done in order and that the record says so. When one step is bound to fail, it ends with that error in that step's phase. |
| Provisioning.Ups | internal/sandbox/session.go:235-270 | The same over any number of `up` runs. |
| Provisioning.NextUp | internal/sandbox/session.go:235-240 | After a success the next `up` on the ready Sandbox resumes, as a repair, exactly when optional failures were reported and no refresh is asked for. |
| Provisioning.UpAfterFailures | internal/sandbox/session.go:235-240 | After an `up` whose steps succeed while development steps fail in the guest, the next one repairs, unless a refresh is asked for. |
| Provisioning.RunDirectory.ProvisionSession | internal/sandbox/reprovision.go:69-333 | The recorded outcome: after a success "succeeded" and "completed", or "failed" and "optional-unavailable" exactly when the guest reported optional failures; after an error the last phase whose write was confirmed. Success means that all planned steps were done and no development step failed. Once the identity was touched no record of this operation precedes the identity. |
| Provisioning.RunDirectory.Finish | internal/sandbox/reprovision.go:79-103 | The deferred finish: which record it writes, and that its own failure becomes the error. |
| Provisioning.RunDirectory.Operate | internal/sandbox/reprovision.go:79-333 | The same of a started operation. |
| Provisioning.RunDirectory.Steps | internal/sandbox/reprovision.go:124-333 | In each of the three modes the steps that succeed are the planned ones in order, each under its own phase; a fresh run's ready.json is first written after exactly all of them; a step that is bound to fail ends the operation in its phase. |
| Provisioning.RunDirectory.Publish | internal/sandbox/reprovision.go:283-331 | A ready Sandbox stays ready; a fresh one becomes ready only after workspaces, mobile access and the last host check. |
| Provisioning.RunDirectory.Connect | internal/sandbox/reprovision.go:124-179 | Up to here only phases that precede the identity are recorded. |
| Provisioning.RunDirectory.ProvisionTools | internal/sandbox/reprovision.go:180-201 | The guest's phases are recorded without touching the identity or claiming a repair phase. |
| Provisioning.RunDirectory.Identity | internal/sandbox/reprovision.go:223-238 | The identity is touched only under the confirmed identity phase. |
| Provisioning.RunDirectory.FinishDevelopment | internal/sandbox/reprovision.go:335-346 | Failed development steps end in their own phase and an error. |
| CaptureDecision.CaptureIff | internal/sandbox/lifecycle.go:429-490 | With a connection record that does not change, the identity is captured exactly when the Sandbox is ready or its recorded phase does not precede the identity. |
| CaptureDecision.DecidedByFiles | internal/sandbox/lifecycle.go:353-408 | On the session files alone: a ready Sandbox is captured whatever was recorded; a failed or connectable one exactly when its record does not precede the identity and it still publishes a connection; one that is starting never, and it is not closed when a connection appears; an unreadable file that decides stops `down`. |
| TailscaleDown.UpsThenDown | internal/sandbox/lifecycle.go:410-516 | Over any number of `up` runs, an identity that some operation on the Sandbox touched is passed over exactly when the session is not ready, or has failed, and the last recorded phase precedes the identity; the last operation has not touched it then; and a close without a stored capture is never requested otherwise. |
| TailscaleDown.FailedUpThenDown | internal/sandbox/lifecycle.go:445-474 | A fresh `up` fails in any one of its steps, and `down` follows: the identity is captured exactly when the operation got as far as the identity; where the guest's own provisioning fails, its last phase decides. |
| TailscaleDown.IdentityPassedOver | internal/sandbox/lifecycle.go:450-474 | That happens: one `up` touches the identity and fails in the next step, another fails in its first step, and `down` skips the capture. |
| TailscaleDown.Down | internal/sandbox/lifecycle.go:410-516 | A whole `down`: it reconciles, decides and closes; a close is requested exactly when the decision is to skip, or to capture and the capture is stored; it succeeds when the close does. |
| TailscaleDown.DownDecides | internal/sandbox/lifecycle.go:410-490 | After reconciling, `down` captures exactly when the session is ready or the record does not precede the identity. |
| TailscaleDown.TouchedIsCaptured | internal/sandbox/lifecycle.go:410-527 | Once an operation has touched the identity, even if it crashed afterwards, a `down` after it requests no close before the identity is captured and stored. |
| TailscaleDown.Closing.RecoverAndStore | internal/sandbox/tailscale.go:136-159 | Success exactly when the capture works, is of the expected user and is stored; a failed capture after the service may have stopped ends with a restart attempt. |
| TailscaleDown.Closing.Close | internal/sandbox/lifecycle.go:484-516 | A close is requested exactly when the decision allows it, after a stored capture if one was decided on; `down` succeeds, and the session record goes, exactly when the Sandbox is gone after that and the removal works; every error with the service stopped and the Sandbox alive ends with a restart attempt. |
| ToolPlan.MergeToolVersions | internal/sandbox/project_plan.go:326-524 | The answer is the one specified for the set of requirements: a plan, the first conflicting tool, or a refusal. |
| ToolPlan.MergeIgnoresOrder | internal/sandbox/project_plan.go:326-524 | Plan and error are the same for any order of user tools, projects and tools within a project, and for repeats. |
| ToolPlan.MergedOnce | internal/sandbox/project_plan.go:480-524 | The specification allows one answer for a set of requirements. |
| ToolPlan.ResolveTool | internal/sandbox/project_plan.go:486-522 | A tool conflicts exactly when the layer that counts has two versions or two series, derived ones included; otherwise its entry is determined. |
| ToolPlan.ResolveAll | internal/sandbox/project_plan.go:480-523 | The tools come in order; the first conflict in that order is reported. |
| ToolPlan.MergeOwned | internal/sandbox/project_plan.go:431-478 | The merge loop's entries say of every tool what its requirements say. |
| ToolPlan.CheckOwned | internal/sandbox/project_plan.go:432-441 | The loop's checks accept exactly the well-formed requirements. |
| ToolPlan.ResolveDeferred | internal/sandbox/project_plan.go:387-417 | The deferred reads fill in the locked versions, and add the toolchain files unless a toolchain is stated; an unreadable file stops the merge. |
| ToolPlan.CollectProjects | internal/sandbox/project_plan.go:350-380 | The nested loops collect every project tool, or refuse an invalid one. |
| ToolPlan.CollectUser | internal/sandbox/project_plan.go:339-344 | The user's tools are collected, or one that asks for the project directory is refused. |
| ToolPlan.ExplicitTools | internal/sandbox/project_plan.go:381-386 | The tools stated with a version or series outside the package lock. |
| ToolPlan.OnlyValue | internal/sandbox/project_plan.go:526-531 | The only value of a set, or the finding that there are several. |
| ToolPlan.ValidatePlan | internal/sandbox/project_plan.go:663-691 | The validator accepts exactly the plans that are sorted, unique, canonical and bounded. |
| ToolPlan.ValidIff | internal/sandbox/project_plan.go:432-441 | What makes a requirement well formed, spelled out. |
| ToolPlan.ItemOkIff | internal/sandbox/project_plan.go:339-380 | Which requirements may be collected, from the user and from a project. |
| ToolPlan.ToolchainRootIs | internal/sandbox/project_plan.go:387-417 | Where the toolchain file of a requirement is looked for. |
| ToolPlan.MergedPlanValidIff | internal/sandbox/project_plan.go:663-691 | Every successful merge passes the validator exactly when each tool has at most 32 owners with single-line texts of at most 256 bytes. |
| ToolPlan.PythonSeriesOk | internal/sandbox/project_plan.go:470-477 | The series derived from a Python version is a proper prefix of it and as well formed. |
| ToolPlan.ToolNamesWellFormed | internal/sandbox/project_plan.go:107-132 | The table of canonical names is keyed by their lower case and small enough for any plan to fit. |
| Ordering.SortedUnique | internal/sandbox/project_plan.go:480-484 | A sorted list without repeats is determined by its elements. |
| Ordering.Sorted | internal/sandbox/project_plan.go:516-520 | The keys of a map in order, each once. |
| LaunchCommand.CommandRecovered | internal/sandbox/config_difference.go:28-38 | A command equals the expected logon command exactly when its masked form and both audio selections do. |
| LaunchCommand.NormalisedFilled | internal/sandbox/config_difference.go:76-84 | Masking the logon command replaces its two selections and nothing else. |
| LaunchCommand.FilledSelections | internal/sandbox/config_difference.go:100-108 | The selections read back from the logon command are the ones it was built with. |
| LaunchDifference.IndexMappings | internal/sandbox/config_difference.go:110-123 | The index, with made-up keys for empty and duplicate folders. |
| LaunchDifference.IndexKnownIff | internal/sandbox/config_difference.go:110-123 | The index has only known keys exactly when the list has no unknown and no repeated folder; then it files each folder by its identity. |
| LaunchDifference.StrayFoldersReported | internal/sandbox/config_difference.go:180-203 | A duplicate or unknown folder is reported whatever is expected. |
| LaunchDifference.FoldersAgreeExactly | internal/sandbox/config_difference.go:39-62 | The index comparisons find nothing exactly when the lists are permutations of each other up to case. |
| LaunchDifference.NoDifferenceIff | internal/sandbox/config_difference.go:12-74 | For every well-mapped expected configuration and any actual data: nothing is reported exactly when the data is the canonical form of the same launch. |
| LaunchDifference.RenderedNoDifferenceIff | internal/sandbox/config_difference.go:12-74 | For every plan that renders: nothing is reported exactly when the data is the same, or every workspace folder is recognised and the data is the canonical form of the same launch. |
| LaunchDifference.RenderedWellMapped | internal/sandbox/provisioning.go:218-223 | With the guest folders that the workspace manifest demands, up to case, a rendered configuration lists the tool's folders only, each once. |
| LaunchDifference.RenderedWellMappedIff | internal/sandbox/config.go:123-174 | A rendered configuration does so exactly when its workspaces' folders are known ones and none stands for another folder. |
| LaunchDifference.ReorderingKeepsLaunch | internal/sandbox/provisioning.go:806-811 | For every plan that renders, reordering the workspaces causes no reported difference exactly when the data stays the same or every workspace folder is recognised, as it is with the folders the manifest demands. |
| LaunchDifference.DescribeDifferences | internal/sandbox/config_difference.go:12-74 | The labels of the differing parts, strictly sorted; none exactly when no part differs. |
| LaunchDifference.LabelledIff | internal/sandbox/config_difference.go:24-62 | A label is in the sorted list exactly when its part differs. |
| LaunchDifference.SettingsReportedIff | internal/sandbox/config_difference.go:24-38 | Memory and both audio selections are named exactly when they differ; a selection that the expected command does not make is not compared. |
| LaunchDifference.FoldersReportedIff | internal/sandbox/config_difference.go:39-62 | The folders with a label of their own are named exactly when they differ. |
| LaunchDifference.PlansAgreeIff | internal/sandbox/config_difference.go:12-74 | A plan with recognised workspaces finds the Sandbox of any other plan good enough exactly when they agree in memory, audio output, audio input, and folders up to order and case. |
| LaunchDifference.RenderedSettings | internal/sandbox/config.go:176-200 | A rendered configuration has the microphone and the sound that the plan allows, in the setting and in the command, and fixed values otherwise. |
| PathMapping.ContainsIsPrefix | internal/sandbox/provisioning.go:2190-2195 | A folder contains a path exactly when its components are a prefix up to case. |
| PathMapping.OverlapIsMeeting | internal/sandbox/provisioning.go:2162-2164 | Two folders overlap exactly when one lies in the other. |
| PathMapping.FirstOverlap | internal/sandbox/session.go:622-628 | The nested loops find an overlap exactly when the folders are not an antichain. |
| PathMapping.Render | internal/sandbox/config.go:79-174 | Rendering succeeds exactly on the accepted plans, and lists the mappings in their order. |
| PathMapping.AddMounts | internal/sandbox/config.go:131-154 | The mount loop succeeds exactly when all mounts are well formed, apart and distinct. |
| PathMapping.AddWorkspaces | internal/sandbox/config.go:155-172 | The workspace loop succeeds exactly when all workspaces are absolute, apart and distinct. |
| PathMapping.RenderedOneToOneIff | internal/sandbox/config.go:155-172 | Of a plan that renders, the host folders never lie in one another; the guest folders do not either exactly when the workspaces' guest folders are apart from each other and from the tool's. |
| PathMapping.RenderedOneToOne | internal/sandbox/provisioning.go:218-223 | With the guest folders that the workspace manifest demands, up to case, whatever renders translates one to one. |
| PathMapping.RenderedNotOneToOne | internal/sandbox/config.go:155-172 | Two concrete plans that render with one guest folder inside another. |
| WorkspaceManifest.Manifest | internal/sandbox/provisioning.go:206-245 | The manifest is written exactly for workspaces with valid, distinct names, their own guest folders and the active one among them; it has one entry for each, sorted by name up to case. |
| WorkspaceManifest.ListedTranslate | internal/sandbox/provisioning.go:206-245 | A plan that renders, with workspaces the manifest accepts, translates one to one. |
| PathMapping.AtMostOneMapping | internal/sandbox/config.go:112-118 | A path lies under at most one mapping. |
| PathMapping.TranslationsUndoEachOther | internal/sandbox/config.go:79-174 | Translating a host path to the guest and back, or the other way round, gives the same path up to case. |
| PathMapping.TranslatesIff | internal/sandbox/config.go:112-118 | A path translates exactly when some mapped folder contains it. |
| PathMapping.AcceptedFolders | internal/sandbox/config.go:83-172 | Every folder of a plan that renders is absolute, and a mount's guest folder is where its name puts it. |
| PhysicalFolders.ValidatePhysical | internal/sandbox/session.go:582-653 | The physical check succeeds exactly when all folders resolve and are apart, and each but the first two meets no private folder, contains no profile root and exposes no folder with credentials. |
| PhysicalFolders.CheckShareable | internal/sandbox/provisioning.go:1995-2061 | The loops over profile roots and credential folders accept exactly the shareable folders; of several spellings of a path the first is looked at. |
| PhysicalFolders.CheckParents | internal/sandbox/provisioning.go:2063-2078 | The way up from a folder finds every parent that resolves into the shared folder. |
| PhysicalFolders.PrivateStaysPrivate | internal/sandbox/session.go:629-649 | No path inside a private folder lies under a folder shared with the guest. |
| PhysicalFolders.SensitiveStaysPrivate | internal/sandbox/provisioning.go:2046-2058 | No path inside an existing folder with credentials lies under a shared folder, and none of its parents does. |
| PhysicalFolders.ProfileStaysPrivate | internal/sandbox/provisioning.go:2197-2213 | No folder that a profile root lies in is shared. |
| CommandLine.EscapeArgument | internal/sandbox/windows_command_line_other.go:11-35 | The quoting loop computes the quoted argument. |
| CommandLine.UnquotedIff | internal/sandbox/windows_command_line_other.go:11-14 | An argument is left as it is exactly when it is not empty and has no white space and no quote. |
| CommandLine.ParseUndoesQuoting | internal/sandbox/windows_command_line_other.go:7-35 | Parsing a line of quoted arguments by the Microsoft C rules gives the arguments back, for every list. |
| CommandLine.ExpectedCommandLineInjective | internal/sandbox/windows_command_line_other.go:7-9 | Equal expected command lines mean equal executables and equal configuration paths. |
| SshInclude.UpdateManagedInclude | internal/sandbox/connection.go:209-244 | The rewriter computes the specified update. |
| SshInclude.UnmarkedTextKept | internal/sandbox/connection.go:234-244 | A text without markers is kept byte for byte as a suffix. |
| SshInclude.RewriteOfRendered | internal/sandbox/connection.go:209-244 | Rewriting what the rewriter wrote changes only the path, unless a marker stands in the text or the path. |
| SshInclude.LastPathWins | internal/sandbox/connection.go:209-244 | Writing one path and then another is writing the second, exactly when the first carries no marker. |
| SshInclude.LastPathWinsIff | internal/sandbox/connection.go:209-244 | For every config that can be rewritten, the last path wins exactly when the texts before and after its block do not make a marker between them and the path carries none. |
| SshInclude.UserTextMarkedIff | internal/sandbox/connection.go:217-232 | Taking the block out leaves a marker exactly when the texts around it make one between them. |
| SshInclude.MovedBlockLastPathWins | internal/sandbox/connection.go:217-232 | A block at the beginning of a line is enough for that. |
| SshInclude.OnlyBoundaryLost | internal/sandbox/connection.go:217-232 | Taking a block out loses the block and line endings at its borders, nothing else. |
| SshInclude.RewriteInsideALineFails | internal/sandbox/connection.go:210-232 | A concrete config with a block inside a line, whose first rewrite leaves a marker and whose second fails. |
| SshInclude.RemovalUndoesUpdate | internal/sandbox/uninstall.go:697-733 | Removal gives the user's text back byte for byte, and refuses a block of another path. |
| SshInclude.RemovedIff | internal/sandbox/uninstall.go:697-733 | On every config: removal changes exactly a text that begins with the one block of this path, in either kind of line ending, and leaves exactly what follows it. |
| SshInclude.WrongPathIff | internal/sandbox/uninstall.go:719-721 | A block of another path is reported exactly when the only block begins the text with a line of its own. |
| SshInclude.UserConfig.Install | internal/sandbox/connection.go:104-131 | In three attempts a success puts the block in front of exactly the text that was compared; every other outcome leaves the file as other programs left it, so only an edit between comparison and replacement is lost. Each failure has its cause, giving up only after three edits; an undisturbed first attempt writes the update if that changes the text and it can be written. |
| SshInclude.UserConfig.WriteIfUnchanged | internal/sandbox/connection.go:250-302 | The file is replaced only when it read as expected at the comparison; an edit after that is overwritten. |
| AuthorizedKeys.KeyBytesIff | internal/sandbox/mobile_access.go:80-102 | The wire parser accepts exactly the 51-byte form of a 32-byte key. |
| AuthorizedKeys.KeyTextCanonical | internal/sandbox/mobile_access.go:64-90 | The text of every 32-byte key is accepted and is its own canonical form. |
| AuthorizedKeys.CanonicalIsKeyText | internal/sandbox/mobile_access.go:64-90 | Whatever is accepted has the canonical text of one key. |
| AuthorizedKeys.CanonicalIff | internal/sandbox/mobile_access.go:64-90 | A key is taken exactly from one line of bounded size without NUL and without space at its ends whose fields are a key. |
| AuthorizedKeys.KeyTextInjective | internal/sandbox/mobile_access.go:88-89 | Different keys have different texts. |
| AuthorizedKeys.KeyTextShape | internal/sandbox/mobile_access.go:64-90 | 51 wire bytes, 68 base64 characters, 80 characters of text. |
| AuthorizedKeys.CanonicalizeKeys | internal/sandbox/mobile_access.go:43-62 | The loop and sort compute the canonical list. |
| AuthorizedKeys.CanonicalizedIsCanonical | internal/sandbox/mobile_access.go:43-62 | The result is sorted, without repeats, of key texts, and says which keys were given. |
| AuthorizedKeys.EncodeIgnoresOrder | internal/sandbox/mobile_access.go:104-113 | Encoding a permutation gives the same text, or refuses both. |
| AuthorizedKeys.DecodeUndoesEncode | internal/sandbox/mobile_access.go:104-138 | Decoding an encoded list gives the sorted canonical list; the file has 81 characters a key, so the size limit never refuses it. |
| AuthorizedKeys.DecodeAcceptsOnlyEncoded | internal/sandbox/mobile_access.go:115-138 | Decoding accepts exactly the files that encoding writes. |
| Base64.RoundTrip | internal/sandbox/mobile_access.go:73-79 | Decoding undoes encoding. |
| Base64.EncodedLength | internal/sandbox/mobile_access.go:77-79 | Three bytes make four characters of the alphabet. |
| Cookies.ValidateAuthentication | internal/sandbox/tradingview_auth_sync.go:164-210 | The validating loops accept exactly the specified files. |
| Cookies.ValidateCookies | internal/sandbox/tradingview_auth_sync.go:184-208 | The cookies are accepted exactly when allowed, distinct and complete in every session. |
| Cookies.ValidateUsers | internal/sandbox/tradingview_auth_sync.go:174-180 | The user ids are accepted exactly when well formed and strictly sorted. |
| Cookies.CookieAllowedIff | internal/sandbox/tradingview_auth_sync.go:224-247 | What a cookie may be, spelled out. |
| Cookies.HostAllowedIff | internal/sandbox/tradingview_auth_sync.go:253-259 | Allowed hosts: the site itself and everything below it, on one short line. |
| Cookies.UserAllowedIff | internal/sandbox/tradingview_auth_sync.go:212-222 | A user id is the decimal form of a positive number of at most 19 digits. |
| Cookies.IdentityIff | internal/sandbox/tradingview_auth_sync.go:190-191 | The keys of allowed cookies are equal exactly when source and name are. |
| Cookies.PairIdentityIff | internal/sandbox/tradingview_auth_sync.go:196-197 | The session keys of allowed cookies are equal exactly when their sources are. |
| Cookies.PartnerOf | internal/sandbox/tradingview_auth_sync.go:198-208 | Every accepted cookie has exactly one partner, and is its partner's. |
| Cookies.CookiesInPairs | internal/sandbox/tradingview_auth_sync.go:164-210 | There are none, two or four accepted cookies. |

## Left out

- JSON, XML, TOML and YAML: records stand for their files, and the XML form of a configuration is a parameter that is
  assumed to read back what it writes.
- The file system below the level of a file: reparse points, open handles, modes, identities of directories and partial
  removals of a directory are outcomes of a step.
- Windows calls, PowerShell, SSH and the guest's scripts: each is a step with a chosen outcome.
- Time: timeouts and the order of clock readings are nondeterministic. Progress is stated of one process or goroutine
  that runs undisturbed, and as `JobObject.WaitNeverDeadlocks`; the waits of the mutex are a finite list.
- Freshness of random ids: run, operation and Sandbox identities are assumed not to repeat.
- Text that is not valid Unicode: a `char` is one Unicode scalar value, so the replacement of invalid bytes is not modelled.
- Case folding beyond ASCII: `strings.ToLower` and `strings.EqualFold` are folded on ASCII letters only.
- `unicode.IsPrint` is a parameter, of which only its values on visible ASCII and on white space are assumed; `strconv.Quote`
  and fmt's `%q` are parameters as well.
- Paths: `filepath.Clean` and `filepath.IsAbs` are applied before the model begins, and a path is its list of components.
- Which error is reported: apart from the first conflicting tool, refusals are told apart only where a caller does so, and
  error texts are not modelled.
- Lifecycle.Next: the listing of Sandbox processes is one read that sees every process alive; the process tree is in `Cleanup`.
- Lifecycle.LockFreeReadIsAtomic: the inspection between the two looks reads `active.json` and the Sandbox processes; the
  status files of the run, which tell starting, connectable, ready and failed apart, are not part of the protocol model.
- PathMapping.Render: memory and mount limits are included, the reasons for a refusal are not.
- ToolPlan.MergeToolVersions: the lists of owners inside a conflict message are not modelled, and workspaces come as a map by name.
- ToolPlan.CheckOwned: the checks of the merge loop are a loop of their own here; the first failing requirement ends both.
- Provisioning.RunDirectory.ProvisionTools: the guest's phases are recorded before its outcome, not concurrently with it; a
  guest phase is assumed not to be named like the two repair phases.
- TailscaleDown.Closing.RecoverAndStore: the state is opaque, and clearing secrets from memory is not modelled.
- Cleanup.DataRoot.Plan: entries whose names are not run ids are ignored from the start.
- PhysicalFolders.ValidatePhysical: which folders hold credentials, and the environment they are found through, are a list
  that is given; relative entries are dropped before.
- WorkspaceManifest.Manifest: the encoding, and which of its checks fails first, are not modelled.
- Repair.Clearable: the SSH config that `clean` removes as well is not part of the protocol model.
- JobObject.Command.Start: a target that ends by itself during a rollback is not modelled.
- TailscaleDown.Down: the session files are readable and do not change between the two looks of one `down`, and the guest
  has published a connection; the decision without that is `CaptureDecision.DecidedByFiles`.
- Provisioning.RunDirectory.ProvisionSession: cancelled, timed-out and failed operations are one outcome, and the message
  recorded is not part of it. That an error has a cause is stated for an operation of which at most one step fails.
- The sort of the workspaces by active project: only that it permutes them is used.
- Uninstalling (but for the removal of the SSH block), archives, Git pulls, agent file lists, terminal settings, QR codes,
  packaging and the command line: mostly input and output, with easy claims.
