/** The Job Object owner of command_windows.go. */
module JobObject {
  // First the one-shot `Start` with its rollback, then `Wait`, the context watcher and any number of outside
  // `Terminate` calls as interleaved steps.

  import opened Common

  // ---------------------------------------------------------------- Start

  /** The native calls `Start` makes, in order. An open call is listed when it returned a handle. */
  datatype Call =
    | CreateJob | StartProcess | OpenProcess | Assign | Resume
    | TerminateJob | TerminateProcess | KillProcess | CloseProcess | CloseJob | Reap

  /** The outcomes of those calls, and when the context was found cancelled. `ended` and `jobClosed` are about the
      rollback: whether the call that is to end the target succeeds, and the closing of the job. */
  datatype Outcomes = Outcomes(
    cancelledBefore: bool, jobCreated: bool, limitSet: bool, processStarted: bool, processOpened: bool,
    jobJoined: bool, cancelledMeanwhile: bool, resumed: bool, processClosed: bool, ended: bool, jobClosed: bool)

  /** The target: not created, waiting to be resumed or running, in the job or not, or ended. */
  datatype Target = NoTarget | Suspended(inJob: bool) | Running(inJob: bool) | Ended

  predicate Alive(target: Target) {
    target.Suspended? || target.Running?
  }

  /** The target after a call that is to end it, and after the kill-on-close job is closed. */
  function Told(target: Target, ended: bool): Target {
    if ended && Alive(target) then Ended else target
  }

  function JobGone(target: Target, closed: bool): Target {
    if closed && Alive(target) && target.inJob then Ended else target
  }

  predicate UsesJob(call: Call) {
    call == Assign || call == TerminateJob || call == CloseJob
  }

  predicate UsesProcessHandle(call: Call) {
    call == Assign || call == TerminateProcess || call == CloseProcess
  }

  /** No call uses a handle after it was closed, so in particular none is closed twice. */
  ghost predicate NoUseAfterClose(calls: seq<Call>) {
    forall i, j :: 0 <= i < j < |calls| ==>
      (calls[i] == CloseJob ==> !UsesJob(calls[j])) && (calls[i] == CloseProcess ==> !UsesProcessHandle(calls[j]))
  }

  /** A target that was started runs only inside its job. */
  ghost predicate ResumedInsideJob(calls: seq<Call>) {
    forall j :: 0 <= j < |calls| && calls[j] == Resume ==> exists i :: 0 <= i < j && calls[i] == Assign
  }

  /** Everything opened is closed, and a started target is told to end and waited for. */
  ghost predicate RolledBack(calls: seq<Call>) {
    && (CloseJob in calls <==> CreateJob in calls)
    && (CloseProcess in calls <==> OpenProcess in calls)
    && (Reap in calls <==> StartProcess in calls)
    && (StartProcess in calls <==> TerminateJob in calls || TerminateProcess in calls || KillProcess in calls)
  }

  predicate EverythingWorks(o: Outcomes) {
    !o.cancelledBefore && o.jobCreated && o.limitSet && o.processStarted && o.processOpened &&
    o.jobJoined && !o.cancelledMeanwhile && o.resumed && o.processClosed
  }

  /** The call sequences a failed start can leave behind, by how far it got. */
  predicate FailedStart(calls: seq<Call>) {
    || calls == []
    || calls == [CreateJob, CloseJob]
    || calls == [CreateJob, StartProcess, KillProcess, CloseJob, Reap]
    || calls == [CreateJob, StartProcess, OpenProcess, Assign, TerminateProcess, CloseProcess, CloseJob, Reap]
    || calls == [CreateJob, StartProcess, OpenProcess, Assign, CloseProcess, TerminateJob, CloseJob, Reap]
    || calls == [CreateJob, StartProcess, OpenProcess, Assign, Resume, CloseProcess, TerminateJob, CloseJob, Reap]
  }

  /** Whatever fails, and wherever: every handle is released exactly once and not used afterwards, the
      target never runs outside the job, and a target that was created is told to end and waited for. */
  lemma FailedStartReleasesEverything(calls: seq<Call>)
    requires FailedStart(calls)
    ensures RolledBack(calls) && NoUseAfterClose(calls) && ResumedInsideJob(calls)
  {
    FailedStartBalanced(calls);
    FailedStartOrdered(calls);
    FailedStartResumed(calls);
  }

  lemma FailedStartOrdered(calls: seq<Call>)
    requires FailedStart(calls)
    ensures NoUseAfterClose(calls)
  {
    if |calls| <= 2 {
    } else if |calls| == 5 {
    } else if |calls| == 8 {
    } else {
    }
  }

  lemma FailedStartResumed(calls: seq<Call>)
    requires FailedStart(calls)
    ensures ResumedInsideJob(calls)
  {
    forall j | 0 <= j < |calls| && calls[j] == Resume ensures exists i :: 0 <= i < j && calls[i] == Assign {
      assert calls[3] == Assign;
    }
  }

  lemma FailedStartBalanced(calls: seq<Call>)
    requires FailedStart(calls)
    ensures RolledBack(calls)
  {
    if |calls| <= 2 {
    } else if |calls| == 5 {
    } else if |calls| == 8 {
      if calls[4] == TerminateProcess {
      } else {
      }
    } else {
    }
  }

  /** The target was created. */
  predicate Created(o: Outcomes) {
    !o.cancelledBefore && o.jobCreated && o.limitSet && o.processStarted
  }

  /** A failed start leaves its target behind, and waits for it without end, exactly when the call that is to end it
      fails and closing the job does not end it either, because it never joined the job or the job is not closed. */
  predicate LeftBehind(o: Outcomes) {
    Created(o) && !o.ended && !(o.processOpened && o.jobJoined && o.jobClosed)
  }

  class Command {
    var startCalled: bool
    var started: bool
    ghost var calls: seq<Call>
    ghost var target: Target

    constructor ()
      ensures !startCalled && !started && calls == [] && target == NoTarget
    {
      startCalled, started, calls, target := false, false, [], NoTarget;
    }

    /** With the wait for the target at the end of a rollback: it returns only once the target has ended. */
    method Start(o: Outcomes) returns (ok: bool)
      requires !startCalled ==> calls == [] && !started && target == NoTarget
      modifies this
      ensures old(startCalled) ==> target == old(target)
      ensures !old(startCalled) && ok ==> target == Running(true)
      ensures !old(startCalled) && !ok ==> (Alive(target) <==> LeftBehind(o))
      ensures !old(startCalled) && !ok && target.Running? ==> target.inJob
      ensures startCalled
      ensures old(startCalled) ==> !ok && calls == old(calls) && started == old(started)
      ensures !old(startCalled) ==> ok == started && (ok <==> EverythingWorks(o))
      ensures !old(startCalled) && ok ==>
        calls == [CreateJob, StartProcess, OpenProcess, Assign, Resume, CloseProcess]
      ensures !old(startCalled) && !ok ==> FailedStart(calls)
    {
      if startCalled {
        return false;
      }
      startCalled := true;
      ok := StartOnce(o);
    }

    /** The one call that gets past the guard. */
    method StartOnce(o: Outcomes) returns (ok: bool)
      requires calls == [] && !started && target == NoTarget
      modifies this`calls, this`target, this`started
      ensures ok == started && (ok <==> EverythingWorks(o))
      ensures ok ==> target == Running(true)
      ensures ok ==> calls == [CreateJob, StartProcess, OpenProcess, Assign, Resume, CloseProcess]
      ensures !ok ==> FailedStart(calls) && (target.Running? ==> target.inJob)
      ensures !ok ==> (Alive(target) <==> LeftBehind(o))
    {
      if o.cancelledBefore || !o.jobCreated {
        return false;
      }
      calls := [CreateJob];
      if !o.limitSet || !o.processStarted {
        calls := calls + [CloseJob];
        assert calls == [CreateJob, CloseJob];
        return false;
      }
      calls := calls + [StartProcess];
      assert calls == [CreateJob, StartProcess];
      target := Suspended(false);
      ok := StartInJob(o);
    }

    /** From the suspended target to the running one in its job, or the rollback. */
    method StartInJob(o: Outcomes) returns (ok: bool)
      requires calls == [CreateJob, StartProcess] && target == Suspended(false) && !started
      modifies this`calls, this`target, this`started
      ensures ok == started
      ensures ok <==> o.processOpened && o.jobJoined && !o.cancelledMeanwhile && o.resumed && o.processClosed
      ensures ok ==> target == Running(true)
      ensures ok ==> calls == [CreateJob, StartProcess, OpenProcess, Assign, Resume, CloseProcess]
      ensures !ok ==> FailedStart(calls) && (target.Running? ==> target.inJob)
      ensures !ok ==> (Alive(target) <==> !o.ended && !(o.processOpened && o.jobJoined && o.jobClosed))
    {
      if !o.processOpened {
        RollbackStart(false, false, o);
        assert calls == [CreateJob, StartProcess, KillProcess, CloseJob, Reap];
        return false;
      }
      calls := calls + [OpenProcess, Assign];
      if !o.jobJoined {
        RollbackStart(true, false, o);
        assert calls == [CreateJob, StartProcess, OpenProcess, Assign, TerminateProcess, CloseProcess, CloseJob, Reap];
        return false;
      }
      target := Suspended(true);
      if !o.cancelledMeanwhile {
        calls := calls + [Resume];
        target := if o.resumed then Running(true) else target;
      }
      calls := calls + [CloseProcess];
      if o.cancelledMeanwhile || !o.resumed || !o.processClosed {
        RollbackStart(false, true, o);
        assert calls == [CreateJob, StartProcess, OpenProcess, Assign] +
          (if o.cancelledMeanwhile then [] else [Resume]) + [CloseProcess, TerminateJob, CloseJob, Reap];
        return false;
      }
      started := true;
      return true;
    }

    /** rollbackStart: which of the three ways ends the target depends on how far `Start` got. A target in the job
        ends with the job, if not before. */
    method RollbackStart(processOpen: bool, inJob: bool, o: Outcomes)
      requires Alive(target) && target.inJob == inJob
      modifies this`calls, this`target
      ensures calls == old(calls) +
        [if inJob then TerminateJob else if processOpen then TerminateProcess else KillProcess] +
        (if processOpen then [CloseProcess] else []) + [CloseJob, Reap]
      ensures if o.ended || (inJob && o.jobClosed) then target == Ended else target == old(target)
    {
      calls := calls + [if inJob then TerminateJob else if processOpen then TerminateProcess else KillProcess];
      target := Told(target, o.ended);
      if processOpen {
        calls := calls + [CloseProcess];
      }
      calls := calls + [CloseJob];
      target := JobGone(target, o.jobClosed);
      calls := calls + [Reap];
    }
  }

  // ---------------------------------------------------------------- Wait, the watcher and Terminate

  type Tid = nat
  datatype Once = Fresh | Busy(thread: Tid) | Done

  /** Where a Terminate call goes back to. */
  datatype Caller = Outside | FromWait | FromWatcher

  datatype Pc =
    // refused before the start, or as a second `Wait`
    | Refused
    // Terminate; `TermDone` is the return to an outside caller
    | TermEnter(caller: Caller)
    | TermOnce(caller: Caller)
    | TermKill(caller: Caller)
    | TermFallback(caller: Caller)
    | TermClose(caller: Caller)
    | TermDone
    // Wait
    | WaitReap
    | WaitFinish
    | WaitWatcher
    | WaitClose
    | WaitClosing
    | WaitReturned
    // the context watcher
    | Watch
    | WatchCheck
    | WatchEnd
    | WatchReturned

  /** The fields of the command, and the world outside it: the context and the processes in the job. `terminateErr` and
      `closeErr` say that TerminateJobObject and CloseHandle failed; `closes` counts the calls of the latter. */
  datatype Job = Job(
    started: bool, waitCalled: bool, finished: bool, watcherDone: bool, contextErr: bool,
    terminateOnce: Once, closeOnce: Once, terminateErr: bool, closeErr: bool,
    handleOpen: bool, closes: nat, waiter: Option<Tid>, watcher: Option<Tid>,
    cancelled: bool, exited: bool, treeAlive: bool)

  datatype State = State(job: Job, threads: map<Tid, Pc>)

  const CREATED :=
    State(Job(false, false, false, false, false, Fresh, Fresh, false, false, false, 0, None, None, false, false, false),
      map[])

  datatype Action =
    | Starts(watching: Option<Tid>)     // a successful Start publishes the job under the mutex
    | Cancel                            // the context ends
    | ProcessExits                      // the root process ends by itself
    | CallTerminate(t: Tid)
    | CallWait(t: Tid)
    | Step(t: Tid, works: bool)         // one step of a goroutine; `works` says whether the Windows call in it succeeds

  function After(caller: Caller): Pc {
    match caller
    case Outside => TermDone
    case FromWait => WaitClose
    case FromWatcher => WatchEnd
  }

  /** The close-once's only call. Closing the last handle of a kill-on-close job ends every process in it. */
  function CloseHandle(j: Job, works: bool): Job {
    var called := j.(closes := j.closes + 1, closeOnce := Done, closeErr := !works);
    if works then called.(handleOpen := false, treeAlive := false, exited := true) else called
  }

  /** Where a step of a goroutine leads. */
  datatype Move = Blocked | To(job: Job, pc: Pc)

  function EnterStep(j: Job, t: Tid, pc: Pc): Move {
    match pc
    case TermEnter(caller) => To(j, if j.started then TermOnce(caller) else Refused)
    case TermOnce(caller) =>
      if j.terminateOnce.Fresh? then To(j.(terminateOnce := Busy(t)), TermKill(caller))
      else if j.terminateOnce.Done? then To(j, After(caller))
      else Blocked
    case _ => Blocked
  }

  /** When the job could not be terminated, it is closed, unless it is closed already. */
  function FallbackStep(j: Job, t: Tid, caller: Caller): Move {
    if j.closeOnce.Fresh? then To(j.(closeOnce := Busy(t)), TermClose(caller))
    else if j.closeOnce.Done? then To(j.(terminateOnce := Done), After(caller))
    else Blocked
  }

  /** The body of the terminate-once. */
  function TerminateStep(j: Job, t: Tid, pc: Pc, works: bool): Move {
    match pc
    case TermKill(caller) =>
      if works then To(j.(terminateOnce := Done, treeAlive := false, exited := true), After(caller))
      else To(j.(terminateErr := true), TermFallback(caller))
    case TermFallback(caller) => FallbackStep(j, t, caller)
    case TermClose(caller) => To(CloseHandle(j, works).(terminateOnce := Done), After(caller))
    case _ => Blocked
  }

  function WaitStep(j: Job, t: Tid, pc: Pc, works: bool): Move {
    match pc
    case WaitReap => if j.exited then To(j, WaitFinish) else Blocked
    case WaitFinish => To(j.(contextErr := j.contextErr || j.cancelled, finished := true), WaitWatcher)
    case WaitWatcher => if j.watcherDone then To(j, TermEnter(FromWait)) else Blocked
    case WaitClose =>
      if j.closeOnce.Fresh? then To(j.(closeOnce := Busy(t)), WaitClosing)
      else if j.closeOnce.Done? then To(j, WaitReturned)
      else Blocked
    case WaitClosing => To(CloseHandle(j, works), WaitReturned)
    case _ => Blocked
  }

  function WatchStep(j: Job, pc: Pc): Move {
    match pc
    case Watch =>
      // `finished` and the closing of processDone happen together under the mutex
      if j.finished then To(j, WatchEnd) else if j.cancelled then To(j, WatchCheck) else Blocked
    case WatchCheck =>
      if j.finished then To(j, WatchEnd) else To(j.(contextErr := true), TermEnter(FromWatcher))
    case WatchEnd => To(j.(watcherDone := true), WatchReturned)
    case _ => Blocked
  }

  function ThreadStep(j: Job, t: Tid, pc: Pc, works: bool): Move {
    if InTerminateOnce(pc) then TerminateStep(j, t, pc, works)
    else if InTerminate(pc) then EnterStep(j, t, pc)
    else if pc.Watch? || pc.WatchCheck? || pc.WatchEnd? then WatchStep(j, pc)
    else WaitStep(j, t, pc, works)
  }

  function Next(s: State, a: Action): Option<State> {
    var j := s.job;
    match a
    case Starts(watching) =>
      if j.started || (watching.Some? && watching.value in s.threads) then None
      else
        var j' := j.(started := true, handleOpen := true, treeAlive := true, exited := false,
                     watcherDone := watching.None?, watcher := watching);
        Some(State(j', if watching.Some? then s.threads[watching.value := Watch] else s.threads))
    case Cancel => Some(s.(job := j.(cancelled := true)))
    case ProcessExits => Some(s.(job := j.(exited := true)))
    case CallTerminate(t) => if t in s.threads then None else Some(s.(threads := s.threads[t := TermEnter(Outside)]))
    case CallWait(t) =>
      if t in s.threads then None
      else if !j.started || j.waitCalled then Some(s.(threads := s.threads[t := Refused]))
      else Some(State(j.(waitCalled := true, waiter := Some(t)), s.threads[t := WaitReap]))
    case Step(t, works) =>
      if t !in s.threads then None
      else
        var next := ThreadStep(j, t, s.threads[t], works);
        if next.To? then Some(State(next.job, s.threads[t := next.pc])) else None
  }

  // ---------------------------------------------------------------- the invariant

  predicate InTerminateOnce(pc: Pc) {
    pc.TermKill? || pc.TermFallback? || pc.TermClose?
  }

  predicate InTerminate(pc: Pc) {
    pc.TermEnter? || pc.TermOnce? || InTerminateOnce(pc)
  }

  predicate InCloseOnce(pc: Pc) {
    pc.TermClose? || pc.WaitClosing?
  }

  predicate IsWaiter(pc: Pc) {
    pc.WaitReap? || pc.WaitFinish? || pc.WaitWatcher? || pc.WaitClose? || pc.WaitClosing? || pc.WaitReturned? ||
    (InTerminate(pc) && pc.caller == FromWait)
  }

  predicate IsWatcher(pc: Pc) {
    pc.Watch? || pc.WatchCheck? || pc.WatchEnd? || (InTerminate(pc) && pc.caller == FromWatcher)
  }

  /** What holds for goroutine `t` when it stands at `pc`. */
  ghost predicate ThreadOk(j: Job, t: Tid, pc: Pc) {
    // the once-guards are busy exactly while one goroutine is inside
    && (InTerminateOnce(pc) <==> j.terminateOnce == Busy(t))
    && (InTerminateOnce(pc) ==> (j.terminateErr <==> !pc.TermKill?))
    && (InCloseOnce(pc) <==> j.closeOnce == Busy(t))
    && (InTerminateOnce(pc) || pc.TermOnce? || IsWatcher(pc) || IsWaiter(pc) ==> j.started)
    && (IsWaiter(pc) ==> j.waitCalled && j.waiter == Some(t))
    && (IsWatcher(pc) ==> j.watcher == Some(t) && !j.watcherDone)
    && (pc.WatchCheck? ==> j.cancelled)
    && (IsWaiter(pc) ==> (j.finished <==> !pc.WaitReap? && !pc.WaitFinish?))
    // the waiter reaches its close only after termination is over
    && (pc.WaitClose? || pc.WaitClosing? || pc.WaitReturned? ==> j.terminateOnce == Done)
    && (pc.WaitReturned? ==> j.closeOnce == Done)
    && (pc.TermDone? ==> j.terminateOnce == Done)
  }

  predicate Terminated(j: Job) {
    j.terminateOnce == Done && !j.terminateErr
  }

  predicate Closed(j: Job) {
    j.closeOnce == Done && !j.closeErr
  }

  ghost predicate JobOk(j: Job) {
    // the job is closed by the close-once body and by nothing else
    && (j.handleOpen <==> j.started && !Closed(j))
    && j.closes == (if j.closeOnce == Done then 1 else 0)
    // and something lives in it until it is terminated or closed
    && (j.treeAlive <==> j.started && !Terminated(j) && !Closed(j))
    // until termination is over, only its own fallback may close
    && (j.terminateOnce != Done ==> j.closeOnce == Fresh || (j.closeOnce.Busy? && j.terminateOnce == j.closeOnce))
    && (j.finished ==> j.waitCalled)
    && (!j.started ==> !j.waitCalled && j.terminateOnce == Fresh && !j.contextErr)
    && (j.terminateErr ==> j.terminateOnce != Fresh)
    // when it failed, it has closed the job, or found it closed
    && (j.terminateErr && j.terminateOnce == Done ==> j.closeOnce == Done)
    && (j.closeErr ==> j.closeOnce == Done)
    && (j.contextErr ==> j.cancelled)
  }

  /** The goroutines that others may wait for exist. */
  ghost predicate RolesOk(s: State) {
    && (s.job.terminateOnce.Busy? ==> s.job.terminateOnce.thread in s.threads)
    && (s.job.closeOnce.Busy? ==> s.job.closeOnce.thread in s.threads)
    && (s.job.started && !s.job.watcherDone ==>
          s.job.watcher.Some? && s.job.watcher.value in s.threads && IsWatcher(s.threads[s.job.watcher.value]))
  }

  ghost predicate Inv(s: State) {
    JobOk(s.job) && RolesOk(s) && forall t :: t in s.threads ==> ThreadOk(s.job, t, s.threads[t])
  }

  lemma TerminateStepKeeps(j: Job, t: Tid, pc: Pc, works: bool, j': Job, pc': Pc)
    requires JobOk(j) && ThreadOk(j, t, pc) && InTerminateOnce(pc) && TerminateStep(j, t, pc, works) == To(j', pc')
    ensures JobOk(j') && ThreadOk(j', t, pc')
  {
  }

  lemma EnterStepKeeps(j: Job, t: Tid, pc: Pc, j': Job, pc': Pc)
    requires JobOk(j) && ThreadOk(j, t, pc) && EnterStep(j, t, pc) == To(j', pc')
    ensures JobOk(j') && ThreadOk(j', t, pc')
  {
  }

  lemma WatchStepKeeps(j: Job, t: Tid, pc: Pc, j': Job, pc': Pc)
    requires JobOk(j) && ThreadOk(j, t, pc) && WatchStep(j, pc) == To(j', pc')
    ensures JobOk(j') && ThreadOk(j', t, pc')
  {
    if pc.WatchEnd? {
    } else if pc.WatchCheck? && !j.finished {
    } else {
    }
  }

  lemma WaitStepKeeps(j: Job, t: Tid, pc: Pc, works: bool, j': Job, pc': Pc)
    requires JobOk(j) && ThreadOk(j, t, pc) && WaitStep(j, t, pc, works) == To(j', pc')
    ensures JobOk(j') && ThreadOk(j', t, pc')
  {
  }

  lemma ThreadStepKeeps(j: Job, t: Tid, pc: Pc, works: bool, j': Job, pc': Pc)
    requires JobOk(j) && ThreadOk(j, t, pc) && ThreadStep(j, t, pc, works) == To(j', pc')
    ensures JobOk(j') && ThreadOk(j', t, pc')
  {
    if InTerminateOnce(pc) {
      TerminateStepKeeps(j, t, pc, works, j', pc');
    } else if InTerminate(pc) {
      EnterStepKeeps(j, t, pc, j', pc');
    } else if pc.Watch? || pc.WatchCheck? || pc.WatchEnd? {
      WatchStepKeeps(j, t, pc, j', pc');
    } else {
      WaitStepKeeps(j, t, pc, works, j', pc');
    }
  }

  lemma TerminateStepSpares(j: Job, t: Tid, pc: Pc, works: bool, j': Job, pc': Pc, u: Tid, other: Pc)
    requires JobOk(j) && ThreadOk(j, t, pc) && TerminateStep(j, t, pc, works) == To(j', pc') && InTerminateOnce(pc)
    requires u != t && ThreadOk(j, u, other)
    ensures ThreadOk(j', u, other)
  {
    if pc.TermFallback? {
    } else {
    }
  }

  lemma EnterStepSpares(j: Job, t: Tid, pc: Pc, j': Job, pc': Pc, u: Tid, other: Pc)
    requires JobOk(j) && ThreadOk(j, t, pc) && EnterStep(j, t, pc) == To(j', pc')
    requires u != t && ThreadOk(j, u, other)
    ensures ThreadOk(j', u, other)
  {
    if pc.TermOnce? && j.terminateOnce.Fresh? {
    } else {
    }
  }

  lemma WatchStepSpares(j: Job, t: Tid, pc: Pc, j': Job, pc': Pc, u: Tid, other: Pc)
    requires JobOk(j) && ThreadOk(j, t, pc) && WatchStep(j, pc) == To(j', pc')
    requires u != t && ThreadOk(j, u, other)
    ensures ThreadOk(j', u, other)
  {
    if pc.WatchEnd? {
    } else if pc.WatchCheck? && !j.finished {
    } else {
    }
  }

  lemma WaitStepSpares(j: Job, t: Tid, pc: Pc, works: bool, j': Job, pc': Pc, u: Tid, other: Pc)
    requires JobOk(j) && ThreadOk(j, t, pc) && WaitStep(j, t, pc, works) == To(j', pc')
    requires u != t && ThreadOk(j, u, other)
    ensures ThreadOk(j', u, other)
  {
    if pc.WaitClosing? {
    } else if pc.WaitClose? && j.closeOnce.Fresh? {
    } else {
    }
  }

  /** A step of one goroutine takes nothing away from another. */
  lemma ThreadStepSpares(j: Job, t: Tid, pc: Pc, works: bool, j': Job, pc': Pc, u: Tid, other: Pc)
    requires JobOk(j) && ThreadOk(j, t, pc) && ThreadStep(j, t, pc, works) == To(j', pc')
    requires u != t && ThreadOk(j, u, other)
    ensures ThreadOk(j', u, other)
  {
    if InTerminateOnce(pc) {
      TerminateStepSpares(j, t, pc, works, j', pc', u, other);
    } else if InTerminate(pc) {
      EnterStepSpares(j, t, pc, j', pc', u, other);
    } else if pc.Watch? || pc.WatchCheck? || pc.WatchEnd? {
      WatchStepSpares(j, t, pc, j', pc', u, other);
    } else {
      WaitStepSpares(j, t, pc, works, j', pc', u, other);
    }
  }

  /** What a step of `t` can do to the roles: it enters a once-guard only for itself, and a watcher
      stays one until it has reported. */
  ghost predicate RolesMove(j: Job, t: Tid, pc: Pc, j': Job, pc': Pc) {
    && j'.watcher == j.watcher && j'.started == j.started && (j.watcherDone ==> j'.watcherDone)
    && (IsWatcher(pc) ==> IsWatcher(pc') || j'.watcherDone)
    && (j'.terminateOnce.Busy? ==> j'.terminateOnce == j.terminateOnce || j'.terminateOnce.thread == t)
    && (j'.closeOnce.Busy? ==> j'.closeOnce == j.closeOnce || j'.closeOnce.thread == t)
  }

  lemma EnterMovesRoles(j: Job, t: Tid, pc: Pc, j': Job, pc': Pc)
    requires ThreadOk(j, t, pc) && EnterStep(j, t, pc) == To(j', pc')
    ensures RolesMove(j, t, pc, j', pc')
  {
    if pc.TermOnce? && j.terminateOnce.Fresh? {
    } else {
    }
  }

  lemma FallbackMovesRoles(j: Job, t: Tid, caller: Caller, j': Job, pc': Pc)
    requires FallbackStep(j, t, caller) == To(j', pc')
    ensures RolesMove(j, t, TermFallback(caller), j', pc')
  {
    if j.closeOnce.Fresh? {
    } else {
    }
  }

  lemma TerminateMovesRoles(j: Job, t: Tid, pc: Pc, works: bool, j': Job, pc': Pc)
    requires TerminateStep(j, t, pc, works) == To(j', pc')
    ensures RolesMove(j, t, pc, j', pc')
  {
    match pc
    case TermKill(caller) =>
    case TermFallback(caller) => FallbackMovesRoles(j, t, caller, j', pc');
    case TermClose(caller) =>
  }

  lemma WaitMovesRoles(j: Job, t: Tid, pc: Pc, works: bool, j': Job, pc': Pc)
    requires WaitStep(j, t, pc, works) == To(j', pc')
    ensures RolesMove(j, t, pc, j', pc')
  {
    if pc.WaitClosing? {
    } else if pc.WaitClose? && j.closeOnce.Fresh? {
    } else {
    }
  }

  lemma WatchMovesRoles(j: Job, t: Tid, pc: Pc, j': Job, pc': Pc)
    requires WatchStep(j, pc) == To(j', pc')
    ensures RolesMove(j, t, pc, j', pc')
  {
  }

  lemma ThreadStepRoles(s: State, t: Tid, works: bool, s': State)
    requires Inv(s) && Next(s, Step(t, works)) == Some(s')
    ensures RolesOk(s')
  {
    var pc := s.threads[t];
    if InTerminateOnce(pc) {
      TerminateMovesRoles(s.job, t, pc, works, s'.job, s'.threads[t]);
    } else if InTerminate(pc) {
      EnterMovesRoles(s.job, t, pc, s'.job, s'.threads[t]);
    } else if pc.Watch? || pc.WatchCheck? || pc.WatchEnd? {
      WatchMovesRoles(s.job, t, pc, s'.job, s'.threads[t]);
    } else {
      WaitMovesRoles(s.job, t, pc, works, s'.job, s'.threads[t]);
    }
  }

  lemma StepKeepsInv(s: State, a: Action, s': State)
    requires Inv(s) && Next(s, a) == Some(s')
    ensures Inv(s')
  {
    if a.Step? {
      ThreadStepRoles(s, a.t, a.works, s');
      ThreadStepKeeps(s.job, a.t, s.threads[a.t], a.works, s'.job, s'.threads[a.t]);
      forall u | u in s'.threads && u != a.t ensures ThreadOk(s'.job, u, s'.threads[u]) {
        ThreadStepSpares(s.job, a.t, s.threads[a.t], a.works, s'.job, s'.threads[a.t], u, s.threads[u]);
      }
    } else if a.Starts? {
      StartKeepsInv(s, a.watching, s');
    } else {
      OutsideKeepsInv(s, a, s');
    }
  }

  lemma StartKeepsInv(s: State, watching: Option<Tid>, s': State)
    requires Inv(s) && Next(s, Starts(watching)) == Some(s')
    ensures Inv(s')
  {
    forall u | u in s'.threads ensures ThreadOk(s'.job, u, s'.threads[u]) {
      assert u in s.threads ==> ThreadOk(s.job, u, s.threads[u]);
    }
  }

  lemma OutsideKeepsInv(s: State, a: Action, s': State)
    requires Inv(s) && Next(s, a) == Some(s') && !a.Step? && !a.Starts?
    ensures Inv(s')
  {
    match a
    case Cancel => WorldKeepsInv(s, s');
    case ProcessExits => WorldKeepsInv(s, s');
    case CallTerminate(t) => CallKeepsInv(s, t, s');
    case CallWait(t) => CallKeepsInv(s, t, s');
  }

  /** The context ends or a process exits. */
  lemma WorldKeepsInv(s: State, s': State)
    requires Inv(s) && s'.threads == s.threads
    requires s'.job == s.job.(cancelled := true) || s'.job == s.job.(exited := true)
    ensures Inv(s')
  {
    forall u | u in s'.threads ensures ThreadOk(s'.job, u, s'.threads[u]) {
      assert ThreadOk(s.job, u, s.threads[u]);
    }
  }

  /** A goroutine enters, perhaps as the waiter. */
  lemma CallKeepsInv(s: State, t: Tid, s': State)
    requires Inv(s) && t !in s.threads
    requires || (s'.job == s.job && s'.threads == s.threads[t := Refused])
             || (s'.job == s.job && s'.threads == s.threads[t := TermEnter(Outside)])
             || (s.job.started && !s.job.waitCalled && s'.job == s.job.(waitCalled := true, waiter := Some(t))
                 && s'.threads == s.threads[t := WaitReap])
    ensures Inv(s')
  {
    forall u | u in s'.threads ensures ThreadOk(s'.job, u, s'.threads[u]) {
      assert u != t ==> ThreadOk(s.job, u, s.threads[u]);
    }
  }

  // ---------------------------------------------------------------- safety of every interleaving

  ghost predicate StepAt(trace: seq<State>, i: int) {
    0 <= i < |trace| - 1 ==> exists a :: Next(trace[i], a) == Some(trace[i + 1])
  }

  ghost predicate IsRun(trace: seq<State>) {
    trace != [] && trace[0] == CREATED && forall i :: StepAt(trace, i)
  }

  lemma {:induction false} RunKeepsInv(trace: seq<State>, n: nat)
    requires IsRun(trace) && n <= |trace|
    ensures forall i :: 0 <= i < n ==> Inv(trace[i])
  {
    if n > 1 {
      RunKeepsInv(trace, n - 1);
      assert StepAt(trace, n - 2);
      var a :| Next(trace[n - 2], a) == Some(trace[n - 1]);
      StepKeepsInv(trace[n - 2], a, trace[n - 1]);
    }
  }

  /** `Wait` has returned: the close was called once, the handle is still open exactly if that call failed, and
      something that ran in the job is left exactly if TerminateJobObject and CloseHandle both failed, which Wait
      reports. */
  ghost predicate OverAndDone(j: Job) {
    && j.closes == 1 && j.finished
    && (j.handleOpen <==> j.closeErr)
    && (j.treeAlive <==> j.terminateErr && j.closeErr)
  }

  /** CloseHandle is called at most once on the job, whatever it answers, and exactly once when `Wait` has returned. */
  lemma ClosedExactlyOnce(trace: seq<State>, i: nat)
    requires IsRun(trace) && i < |trace|
    ensures var j := trace[i].job; j.closes <= 1 && (j.closes == 1 ==> (j.handleOpen <==> j.closeErr))
    ensures forall t :: t in trace[i].threads && trace[i].threads[t].WaitReturned? ==> OverAndDone(trace[i].job)
  {
    RunKeepsInv(trace, i + 1);
    forall t | t in trace[i].threads && trace[i].threads[t].WaitReturned? ensures OverAndDone(trace[i].job) {
      assert ThreadOk(trace[i].job, t, trace[i].threads[t]);
    }
  }

  /** TerminateJobObject and CloseHandle are only ever called on the open handle. */
  lemma HandleUsedOnlyWhileOpen(trace: seq<State>, i: nat, t: Tid)
    requires IsRun(trace) && i < |trace| && t in trace[i].threads
    requires trace[i].threads[t].TermKill? || InCloseOnce(trace[i].threads[t])
    ensures trace[i].job.handleOpen
  {
    RunKeepsInv(trace, i + 1);
    assert ThreadOk(trace[i].job, t, trace[i].threads[t]);
  }

  /** Once the watcher has recorded a cancellation, and until the process is reaped, it is on its way through
      Terminate, or termination is over. */
  ghost predicate CancelActs(s: State) {
    s.job.contextErr && !s.job.finished ==>
      && s.job.watcher.Some? && s.job.watcher.value in s.threads
      && CancelActsAt(s.job, s.threads[s.job.watcher.value])
  }

  predicate CancelActsAt(j: Job, pc: Pc) {
    (InTerminate(pc) && pc.caller == FromWatcher) || ((pc.WatchEnd? || pc.WatchReturned?) && j.terminateOnce == Done)
  }

  /** What a step of any goroutine leaves of it: nothing undoes a termination. */
  lemma TerminationStays(j: Job, t: Tid, pc: Pc, works: bool, j': Job, pc': Pc)
    requires JobOk(j) && ThreadOk(j, t, pc) && ThreadStep(j, t, pc, works) == To(j', pc')
    ensures j.terminateOnce == Done ==> j'.terminateOnce == Done
    ensures j'.watcher == j.watcher && (j.finished ==> j'.finished)
    ensures j'.contextErr && !j'.finished && !j.contextErr ==> pc.WatchCheck?
  {
    if InTerminateOnce(pc) {
    } else if InTerminate(pc) {
    } else if pc.Watch? || pc.WatchCheck? || pc.WatchEnd? {
    } else {
    }
  }

  /** The watcher itself. */
  lemma WatcherActs(j: Job, t: Tid, pc: Pc, works: bool, j': Job, pc': Pc)
    requires JobOk(j) && ThreadOk(j, t, pc) && ThreadStep(j, t, pc, works) == To(j', pc')
    requires !j'.finished && ((j.contextErr && CancelActsAt(j, pc)) || (pc.WatchCheck? && j'.contextErr))
    ensures CancelActsAt(j', pc')
  {
    if InTerminateOnce(pc) {
    } else if InTerminate(pc) {
    } else {
    }
  }

  lemma ThreadStepActs(s: State, t: Tid, works: bool, s': State)
    requires Inv(s) && CancelActs(s) && Next(s, Step(t, works)) == Some(s')
    ensures CancelActs(s')
  {
    var pc := s.threads[t];
    assert ThreadOk(s.job, t, pc);
    TerminationStays(s.job, t, pc, works, s'.job, s'.threads[t]);
    if s'.job.contextErr && !s'.job.finished && (pc.WatchCheck? || s.job.watcher == Some(t)) {
      WatcherActs(s.job, t, pc, works, s'.job, s'.threads[t]);
    }
  }

  lemma StepActs(s: State, a: Action, s': State)
    requires Inv(s) && CancelActs(s) && Next(s, a) == Some(s')
    ensures CancelActs(s')
  {
    if a.Step? {
      ThreadStepActs(s, a.t, a.works, s');
    } else if a.Starts? {
    } else if a.CallWait? {
    } else {
    }
  }

  lemma {:induction false} RunActs(trace: seq<State>, n: nat)
    requires IsRun(trace) && n <= |trace|
    ensures forall i :: 0 <= i < n ==> CancelActs(trace[i])
  {
    if n > 1 {
      RunActs(trace, n - 1);
      RunKeepsInv(trace, n);
      assert StepAt(trace, n - 2);
      var a :| Next(trace[n - 2], a) == Some(trace[n - 1]);
      StepActs(trace[n - 2], a, trace[n - 1]);
    }
  }

  /** A cancellation is recorded only if the context really ended, and it ends the job: while the process is not
      reaped, the watcher that recorded it is inside Terminate, or termination is over, and once it has returned,
      something is left in the job only if TerminateJobObject and CloseHandle both failed. */
  lemma CancellationTerminates(trace: seq<State>, i: nat)
    requires IsRun(trace) && i < |trace|
    ensures var j := trace[i].job;
      && (j.contextErr ==> j.cancelled)
      && (j.contextErr && !j.finished && j.watcherDone ==>
            j.terminateOnce == Done && (j.treeAlive ==> j.terminateErr && j.closeErr))
      && (j.contextErr && !j.finished && !j.watcherDone ==>
            && j.watcher.Some? && j.watcher.value in trace[i].threads
            && var pc := trace[i].threads[j.watcher.value];
               (InTerminate(pc) && pc.caller == FromWatcher) || (pc.WatchEnd? && j.terminateOnce == Done))
  {
    RunKeepsInv(trace, i + 1);
    RunActs(trace, i + 1);
    var j := trace[i].job;
    if j.contextErr && !j.finished {
      var w := j.watcher.value;
      assert ThreadOk(j, w, trace[i].threads[w]);
    }
  }

  /** An outside Terminate that returns has ended the job, unless both calls failed. */
  lemma TerminateTerminates(trace: seq<State>, i: nat, t: Tid)
    requires IsRun(trace) && i < |trace| && t in trace[i].threads && trace[i].threads[t].TermDone?
    ensures var j := trace[i].job; j.terminateOnce == Done && (j.treeAlive ==> j.terminateErr && j.closeErr)
  {
    RunKeepsInv(trace, i + 1);
    assert ThreadOk(trace[i].job, t, trace[i].threads[t]);
  }

  /** What `Wait` reports of the context is settled when the process is reaped: whether it had ended by then. */
  lemma ReapSettlesCancellation(trace: seq<State>, i: nat, k: nat)
    requires IsRun(trace) && i < k < |trace| && !trace[i].job.finished && trace[i + 1].job.finished
    ensures trace[k].job.finished && trace[k].job.contextErr == trace[i].job.cancelled
    decreases k
  {
    RunKeepsInv(trace, k + 1);
    assert StepAt(trace, k - 1);
    var a :| Next(trace[k - 1], a) == Some(trace[k]);
    if k > i + 1 {
      ReapSettlesCancellation(trace, i, k - 1);
    }
    StepSettles(trace[k - 1], a, trace[k]);
  }

  lemma StepSettles(s: State, a: Action, s': State)
    requires Inv(s) && Next(s, a) == Some(s')
    ensures s.job.finished ==> s'.job.finished && s'.job.contextErr == s.job.contextErr
    ensures !s.job.finished && s'.job.finished ==> s'.job.contextErr == s.job.cancelled
  {
    if a.Step? {
      assert ThreadOk(s.job, a.t, s.threads[a.t]);
      FinishSettles(s.job, a.t, s.threads[a.t], a.works, s'.job, s'.threads[a.t]);
    }
  }

  lemma FinishSettles(j: Job, t: Tid, pc: Pc, works: bool, j': Job, pc': Pc)
    requires JobOk(j) && ThreadOk(j, t, pc) && ThreadStep(j, t, pc, works) == To(j', pc')
    ensures j.finished ==> j'.finished && j'.contextErr == j.contextErr
    ensures !j.finished && j'.finished ==> j'.contextErr == j.cancelled
  {
    if InTerminateOnce(pc) {
    } else if InTerminate(pc) {
    } else if pc.Watch? || pc.WatchCheck? || pc.WatchEnd? {
    } else {
    }
  }

  ghost predicate CanStep(s: State, t: Tid) {
    t in s.threads && forall works :: ThreadStep(s.job, t, s.threads[t], works).To?
  }

  /** Whoever has to enter the terminate-once can move, or the goroutine inside it can. */
  lemma TerminateMoves(s: State, t: Tid) returns (mover: Tid)
    requires Inv(s) && t in s.threads && InTerminate(s.threads[t])
    ensures CanStep(s, mover)
  {
    mover := if s.threads[t].TermOnce? && s.job.terminateOnce.Busy? then s.job.terminateOnce.thread else t;
    assert ThreadOk(s.job, t, s.threads[t]) && ThreadOk(s.job, mover, s.threads[mover]);
  }

  /** No deadlock: while `Wait` has been called and has not returned, and the process has exited, the
      waiter or a goroutine it waits for can always move. */
  lemma WaitNeverDeadlocks(trace: seq<State>, i: nat, t: Tid) returns (mover: Tid)
    requires IsRun(trace) && i < |trace| && trace[i].job.exited
    requires t in trace[i].threads && IsWaiter(trace[i].threads[t]) && trace[i].threads[t] != WaitReturned
    ensures CanStep(trace[i], mover)
  {
    RunKeepsInv(trace, i + 1);
    var s := trace[i];
    mover := t;
    assert ThreadOk(s.job, t, s.threads[t]);
    if InTerminate(s.threads[t]) {
      mover := TerminateMoves(s, t);
    } else if s.threads[t].WaitWatcher? && !s.job.watcherDone {
      mover := s.job.watcher.value;
      if InTerminate(s.threads[mover]) {
        mover := TerminateMoves(s, mover);
      }
    } else if s.threads[t].WaitClose? {
      NobodyElseCloses(s, t);
    }
  }

  /** When the waiter gets to its own close, no other goroutine is inside the close-once. */
  lemma NobodyElseCloses(s: State, t: Tid)
    requires Inv(s) && t in s.threads && s.threads[t].WaitClose?
    ensures !s.job.closeOnce.Busy?
  {
    assert ThreadOk(s.job, t, s.threads[t]);
    var u := s.job.closeOnce;
    if u.Busy? && ThreadOk(s.job, u.thread, s.threads[u.thread]) {
      assert false;
    }
  }

  /** A successful start publishes a job that runs, unless it has one already. */
  lemma StartPublishes(s: State, watching: Option<Tid>)
    requires Inv(s) && (watching.Some? ==> watching.value !in s.threads)
    ensures s.job.started <==> Next(s, Starts(watching)).None?
    ensures !s.job.started ==>
      var s' := Next(s, Starts(watching)).value;
      && s'.job.started && s'.job.handleOpen && s'.job.treeAlive && !s'.job.exited && !s'.job.finished
      && s'.job.terminateOnce.Fresh? && s'.job.closeOnce.Fresh? && (s'.job.watcherDone <==> watching.None?)
      && (watching.Some? ==> s'.threads == s.threads[watching.value := Watch])
  {
  }

  // ---------------------------------------------------------------- one goroutine at a time

  /** Whether the Windows call of a step succeeds, when it is known whether the two calls do. */
  predicate Works(pc: Pc, kills: bool, closes: bool) {
    if pc.TermKill? then kills else closes
  }

  /** Steps of one goroutine with nothing in between. */
  function Alone(s: State, t: Tid, steps: nat, kills: bool, closes: bool): Option<State>
    decreases steps
  {
    if steps == 0 then Some(s)
    else if t !in s.threads then None
    else
      match Next(s, Step(t, Works(s.threads[t], kills, closes)))
      case None => None
      case Some(s') => Alone(s', t, steps - 1, kills, closes)
  }

  /** Steps on the job and the goroutine's own place. */
  function Iterate(step: (Job, Pc) -> Move, j: Job, pc: Pc, steps: nat): Move
    decreases steps
  {
    if steps == 0 then To(j, pc)
    else
      match step(j, pc)
      case Blocked => Blocked
      case To(j', pc') => Iterate(step, j', pc', steps - 1)
  }

  function StepsOf(t: Tid, kills: bool, closes: bool): (Job, Pc) -> Move {
    (j: Job, pc: Pc) => ThreadStep(j, t, pc, Works(pc, kills, closes))
  }

  function AloneFrom(j: Job, t: Tid, pc: Pc, steps: nat, kills: bool, closes: bool): Move {
    Iterate(StepsOf(t, kills, closes), j, pc, steps)
  }

  lemma {:induction false} IterateFurther(step: (Job, Pc) -> Move, j: Job, pc: Pc, steps: nat, more: nat, j': Job,
                                          pc': Pc)
    requires Iterate(step, j, pc, steps) == To(j', pc')
    ensures Iterate(step, j, pc, steps + more) == Iterate(step, j', pc', more)
    decreases steps
  {
    if steps > 0 {
      var next := step(j, pc);
      IterateFurther(step, next.job, next.pc, steps - 1, more, j', pc');
    }
  }

  lemma AloneFirst(j: Job, t: Tid, pc: Pc, more: nat, kills: bool, closes: bool, j': Job, pc': Pc)
    requires ThreadStep(j, t, pc, Works(pc, kills, closes)) == To(j', pc')
    ensures AloneFrom(j, t, pc, more + 1, kills, closes) == AloneFrom(j', t, pc', more, kills, closes)
  {
  }

  lemma {:induction false} AloneTouchesOne(s: State, t: Tid, steps: nat, kills: bool, closes: bool, j': Job, pc': Pc)
    requires t in s.threads && AloneFrom(s.job, t, s.threads[t], steps, kills, closes) == To(j', pc')
    ensures Alone(s, t, steps, kills, closes) == Some(State(j', s.threads[t := pc']))
    decreases steps
  {
    if steps == 0 {
      assert s.threads[t := s.threads[t]] == s.threads;
    } else {
      var next := ThreadStep(s.job, t, s.threads[t], Works(s.threads[t], kills, closes));
      var s1 := State(next.job, s.threads[t := next.pc]);
      AloneFirst(s.job, t, s.threads[t], steps - 1, kills, closes, next.job, next.pc);
      assert Next(s, Step(t, Works(s.threads[t], kills, closes))) == Some(s1);
      AloneTouchesOne(s1, t, steps - 1, kills, closes, j', pc');
      assert s1.threads[t := pc'] == s.threads[t := pc'];
    }
  }

  /** Steps after steps. */
  lemma AloneFurther(j: Job, t: Tid, pc: Pc, steps: nat, more: nat, kills: bool, closes: bool, j': Job, pc': Pc)
    requires AloneFrom(j, t, pc, steps, kills, closes) == To(j', pc')
    ensures AloneFrom(j, t, pc, steps + more, kills, closes) == AloneFrom(j', t, pc', more, kills, closes)
  {
    IterateFurther(StepsOf(t, kills, closes), j, pc, steps, more, j', pc');
  }

  /** One step more. */
  lemma AloneThen(j: Job, t: Tid, pc: Pc, steps: nat, kills: bool, closes: bool, j1: Job, pc1: Pc, j2: Job, pc2: Pc)
    requires AloneFrom(j, t, pc, steps, kills, closes) == To(j1, pc1)
    requires ThreadStep(j1, t, pc1, Works(pc1, kills, closes)) == To(j2, pc2)
    ensures AloneFrom(j, t, pc, steps + 1, kills, closes) == To(j2, pc2)
  {
    AloneFurther(j, t, pc, steps, 1, kills, closes, j1, pc1);
    assert AloneFrom(j2, t, pc2, 0, kills, closes) == To(j2, pc2);
  }

  lemma AloneOnce(j: Job, t: Tid, pc: Pc, kills: bool, closes: bool, j': Job, pc': Pc)
    requires ThreadStep(j, t, pc, Works(pc, kills, closes)) == To(j', pc')
    ensures AloneFrom(j, t, pc, 1, kills, closes) == To(j', pc')
  {
    assert AloneFrom(j', t, pc', 0, kills, closes) == To(j', pc');
  }

  /** The job after a Terminate that nobody else takes part in. */
  function Ends(j: Job, kills: bool, closes: bool): Job {
    if kills then j.(terminateOnce := Done, treeAlive := false, exited := true)
    else CloseHandle(j.(terminateErr := true), closes).(terminateOnce := Done)
  }

  function TerminateSteps(kills: bool): nat {
    if kills then 3 else 5
  }

  lemma TerminateEntered(j: Job, t: Tid, caller: Caller, kills: bool, closes: bool)
    requires j.started && j.terminateOnce == Fresh
    ensures AloneFrom(j, t, TermEnter(caller), 2, kills, closes) == To(j.(terminateOnce := Busy(t)), TermKill(caller))
  {
    var pc := TermEnter(caller);
    assert AloneFrom(j, t, pc, 0, kills, closes) == To(j, pc);
    AloneThen(j, t, pc, 0, kills, closes, j, pc, j, TermOnce(caller));
    AloneThen(j, t, pc, 1, kills, closes, j, TermOnce(caller), j.(terminateOnce := Busy(t)), TermKill(caller));
  }

  lemma FallbackRuns(j: Job, t: Tid, caller: Caller, closes: bool)
    requires j.closeOnce == Fresh
    ensures AloneFrom(j, t, TermFallback(caller), 2, false, closes)
         == To(CloseHandle(j, closes).(terminateOnce := Done), After(caller))
  {
    var pc, busy := TermFallback(caller), j.(closeOnce := Busy(t));
    assert FallbackStep(j, t, caller) == To(busy, TermClose(caller));
    AloneOnce(j, t, pc, false, closes, busy, TermClose(caller));
    FallbackCloses(j, t, caller, closes);
    AloneThen(j, t, pc, 1, false, closes, busy, TermClose(caller), CloseHandle(j, closes).(terminateOnce := Done),
              After(caller));
  }

  lemma FallbackCloses(j: Job, t: Tid, caller: Caller, closes: bool)
    ensures ThreadStep(j.(closeOnce := Busy(t)), t, TermClose(caller), closes)
         == To(CloseHandle(j, closes).(terminateOnce := Done), After(caller))
  {
  }

  lemma TerminateRuns(j: Job, t: Tid, caller: Caller, kills: bool, closes: bool)
    requires JobOk(j) && j.started && j.terminateOnce == Fresh
    ensures AloneFrom(j, t, TermEnter(caller), TerminateSteps(kills), kills, closes)
         == To(Ends(j, kills, closes), After(caller))
  {
    var pc, entered := TermEnter(caller), j.(terminateOnce := Busy(t));
    TerminateEntered(j, t, caller, kills, closes);
    if kills {
      AloneThen(j, t, pc, 2, kills, closes, entered, TermKill(caller), Ends(j, kills, closes), After(caller));
    } else {
      var failed := entered.(terminateErr := true);
      AloneThen(j, t, pc, 2, kills, closes, entered, TermKill(caller), failed, TermFallback(caller));
      AloneFurther(j, t, pc, 3, 2, kills, closes, failed, TermFallback(caller));
      FallbackRuns(failed, t, caller, closes);
    }
  }

  /** What is left of the job: nothing runs in it unless both calls failed, and it is closed at most once. */
  predicate JobEnded(j: Job, kills: bool, closes: bool) {
    && j.terminateOnce == Done && (j.terminateErr <==> !kills) && (j.treeAlive <==> !kills && !closes)
    && (j.treeAlive || j.exited)
  }

  /** An outside Terminate on a started job that nobody else is terminating ends what runs in it, unless both calls
      fail; before the start it is refused. */
  lemma OutsideTerminate(s: State, t: Tid, kills: bool, closes: bool) returns (called: State, s': State)
    requires Inv(s) && t !in s.threads
    ensures Next(s, CallTerminate(t)) == Some(called)
    ensures s.job.started && s.job.terminateOnce == Fresh ==>
      && Alone(called, t, TerminateSteps(kills), kills, closes) == Some(s')
      && s'.threads == s.threads[t := TermDone] && JobEnded(s'.job, kills, closes)
    ensures !s.job.started ==>
      Alone(called, t, 1, kills, closes) == Some(s') && s' == s.(threads := s.threads[t := Refused])
  {
    called := s.(threads := s.threads[t := TermEnter(Outside)]);
    if s.job.started {
      s' := State(Ends(s.job, kills, closes), called.threads[t := TermDone]);
      if s.job.terminateOnce == Fresh {
        TerminateRuns(s.job, t, Outside, kills, closes);
        AloneTouchesOne(called, t, TerminateSteps(kills), kills, closes, s'.job, TermDone);
      }
      assert called.threads[t := TermDone] == s.threads[t := TermDone];
    } else {
      s' := s.(threads := s.threads[t := Refused]);
      assert AloneFrom(s.job, t, Refused, 0, kills, closes) == To(s.job, Refused);
      AloneTouchesOne(called, t, 1, kills, closes, s.job, Refused);
      assert called.threads[t := Refused] == s.threads[t := Refused];
    }
  }

  /** When the context ends and the process is not reaped, the watcher records it, ends what runs in the job,
      unless both calls fail, and returns. */
  lemma WatcherEndsJob(before: State, t: Tid, kills: bool, closes: bool) returns (s: State, s': State)
    requires Inv(before) && t in before.threads && before.threads[t].Watch? && !before.job.finished
    requires before.job.terminateOnce == Fresh
    ensures Next(before, Cancel) == Some(s)
    ensures Alone(s, t, TerminateSteps(kills) + 3, kills, closes) == Some(s')
    ensures s'.threads == s.threads[t := WatchReturned]
    ensures s'.job.contextErr && s'.job.watcherDone && !s'.job.finished && JobEnded(s'.job, kills, closes)
  {
    s := Next(before, Cancel).value;
    var j, n := s.job, TerminateSteps(kills);
    assert ThreadOk(before.job, t, Watch);
    assert JobOk(j);
    var seen := j.(contextErr := true);
    assert AloneFrom(j, t, Watch, 0, kills, closes) == To(j, Watch);
    AloneThen(j, t, Watch, 0, kills, closes, j, Watch, j, WatchCheck);
    AloneThen(j, t, Watch, 1, kills, closes, j, WatchCheck, seen, TermEnter(FromWatcher));
    AloneFurther(j, t, Watch, 2, n, kills, closes, seen, TermEnter(FromWatcher));
    TerminateRuns(seen, t, FromWatcher, kills, closes);
    var ended := Ends(seen, kills, closes);
    AloneThen(j, t, Watch, n + 2, kills, closes, ended, WatchEnd, ended.(watcherDone := true), WatchReturned);
    AloneTouchesOne(s, t, n + 3, kills, closes, ended.(watcherDone := true), WatchReturned);
    s' := State(ended.(watcherDone := true), s.threads[t := WatchReturned]);
  }

  /** Once the process has exited, a first `Wait` on a job whose watcher is done reaps it, and returns with the job
      terminated and closed; a second one is refused, and so is one before the start. */
  lemma WaitReturns(before: State, t: Tid, kills: bool, closes: bool) returns (s: State, called: State, s': State)
    requires Inv(before) && t !in before.threads
    ensures Next(before, ProcessExits) == Some(s) && Next(s, CallWait(t)) == Some(called)
    ensures !s.job.started || s.job.waitCalled ==> called == s.(threads := s.threads[t := Refused])
    ensures Waitable(s.job) ==>
      && Alone(called, t, TerminateSteps(kills) + (if kills then 5 else 4), kills, closes) == Some(s')
      && s'.threads == s.threads[t := WaitReturned] && OverAndDone(s'.job)
      && s'.job.contextErr == (s.job.contextErr || s.job.cancelled)
  {
    s := Next(before, ProcessExits).value;
    StepKeepsInv(before, ProcessExits, s);
    called := Next(s, CallWait(t)).value;
    s' := s;
    StepKeepsInv(s, CallWait(t), called);
    if Waitable(s.job) {
      s' := WaitRuns(called, t, kills, closes);
      assert called.threads[t := WaitReturned] == s.threads[t := WaitReturned];
    }
  }

  predicate Waitable(j: Job) {
    j.started && !j.waitCalled && j.watcherDone && j.terminateOnce == Fresh
  }

  lemma WaitRuns(s: State, t: Tid, kills: bool, closes: bool) returns (s': State)
    requires Inv(s) && t in s.threads && s.threads[t].WaitReap?
    requires s.job.exited && s.job.watcherDone && s.job.terminateOnce == Fresh
    ensures Alone(s, t, TerminateSteps(kills) + (if kills then 5 else 4), kills, closes) == Some(s')
    ensures s'.threads == s.threads[t := WaitReturned] && OverAndDone(s'.job)
    ensures s'.job.contextErr == (s.job.contextErr || s.job.cancelled)
  {
    var j, n := s.job, TerminateSteps(kills);
    assert ThreadOk(j, t, WaitReap);
    var reaped := j.(contextErr := j.contextErr || j.cancelled, finished := true);
    assert AloneFrom(j, t, WaitReap, 0, kills, closes) == To(j, WaitReap);
    AloneThen(j, t, WaitReap, 0, kills, closes, j, WaitReap, j, WaitFinish);
    AloneThen(j, t, WaitReap, 1, kills, closes, j, WaitFinish, reaped, WaitWatcher);
    AloneThen(j, t, WaitReap, 2, kills, closes, reaped, WaitWatcher, reaped, TermEnter(FromWait));
    AloneFurther(j, t, WaitReap, 3, n, kills, closes, reaped, TermEnter(FromWait));
    TerminateRuns(reaped, t, FromWait, kills, closes);
    var ended := Ends(reaped, kills, closes);
    var last := WaitCloses(ended, t, kills, closes);
    AloneFurther(j, t, WaitReap, n + 3, if kills then 2 else 1, kills, closes, ended, WaitClose);
    AloneTouchesOne(s, t, n + (if kills then 5 else 4), kills, closes, last, WaitReturned);
    s' := State(last, s.threads[t := WaitReturned]);
  }

  /** The waiter's own close, unless the job is closed already. */
  lemma WaitCloses(j: Job, t: Tid, kills: bool, closes: bool) returns (j': Job)
    requires if kills then j.closeOnce == Fresh else j.closeOnce == Done
    ensures AloneFrom(j, t, WaitClose, if kills then 2 else 1, kills, closes) == To(j', WaitReturned)
    ensures j' == if kills then CloseHandle(j, closes) else j
  {
    if kills {
      j' := CloseHandle(j, closes);
      var busy := j.(closeOnce := Busy(t));
      assert WaitStep(j, t, WaitClose, closes) == To(busy, WaitClosing);
      AloneOnce(j, t, WaitClose, kills, closes, busy, WaitClosing);
      ClosingStep(j, t, closes);
      AloneThen(j, t, WaitClose, 1, kills, closes, busy, WaitClosing, j', WaitReturned);
    } else {
      j' := j;
      assert WaitStep(j, t, WaitClose, closes) == To(j, WaitReturned);
      AloneOnce(j, t, WaitClose, kills, closes, j, WaitReturned);
    }
  }

  lemma ClosingStep(j: Job, t: Tid, closes: bool)
    ensures ThreadStep(j.(closeOnce := Busy(t)), t, WaitClosing, closes) == To(CloseHandle(j, closes), WaitReturned)
  {
  }
}
