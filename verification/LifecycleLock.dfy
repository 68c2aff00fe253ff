/** Acquiring the lifecycle mutex and giving it back (lifecycle_lock_windows.go), as the Windows calls that are made. */
module LifecycleLock {
  import opened Common

  datatype Call = LockThread | CreateMutex | ReleaseMutex | CloseHandle | UnlockThread

  /** One wait of 100 ms: what it returned, and whether the context was done by then. */
  datatype Wait = Object | AbandonedObject | Timeout(done: bool) | Unexpected | WaitError

  datatype Acquisition = Acquired | NotAcquired | StillWaiting

  /** Nothing is left: the thread is unlocked once, and a handle that was opened is closed once, without a release. */
  ghost predicate GivenUp(calls: seq<Call>) {
    calls == [LockThread, UnlockThread] || calls == [LockThread, CreateMutex, CloseHandle, UnlockThread]
  }

  /** What the waits, taken in order, come to: an abandoned mutex counts as acquired. */
  function Awaited(waits: seq<Wait>): Acquisition {
    if waits == [] then StillWaiting
    else if waits[0].Object? || waits[0].AbandonedObject? then Acquired
    else if waits[0] == Timeout(false) then Awaited(waits[1..])
    else NotAcquired
  }

  class Mutex {
    ghost var calls: seq<Call>
    var released: bool
    var releaseFailed: bool

    constructor ()
      ensures calls == [] && !released
    {
      calls, released, releaseFailed := [], false, false;
    }

    /** The mutex is held through one open handle. */
    ghost predicate IsHeld()
      reads this
    {
      calls == [LockThread, CreateMutex] && !released
    }

    /** acquireNamedLifecycleLock, for the waits it gets to see. */
    method Acquire(nameOk: bool, created: bool, waits: seq<Wait>) returns (result: Acquisition)
      requires calls == [] && !released
      modifies this
      ensures result == if nameOk && created then Awaited(waits) else NotAcquired
      ensures result == Acquired || result == StillWaiting ==> IsHeld()
      ensures result == NotAcquired ==> GivenUp(calls)
    {
      calls := calls + [LockThread];
      if !nameOk || !created {
        calls := calls + [UnlockThread];
        return NotAcquired;
      }
      calls := calls + [CreateMutex];
      for i := 0 to |waits|
        invariant IsHeld() && Awaited(waits) == Awaited(waits[i..])
      {
        match waits[i] {
          case Object =>
            return Acquired;
          case AbandonedObject =>
            return Acquired;
          case Timeout(false) =>
          case _ =>
            calls := calls + [CloseHandle];
            calls := calls + [UnlockThread];
            return NotAcquired;
        }
      }
      result := StillWaiting;
    }

    /** The release function: its calls are made once, and its answer stays the same. */
    method Release(releases: bool, closes: bool) returns (ok: bool)
      requires IsHeld() || IsReleased()
      modifies this
      ensures IsReleased() && ok == !releaseFailed
      ensures releaseFailed == if old(released) then old(releaseFailed) else !(releases && closes)
    {
      if !released {
        released := true;
        calls := calls + [ReleaseMutex];
        calls := calls + [CloseHandle];
        calls := calls + [UnlockThread];
        releaseFailed := !releases || !closes;
      }
      ok := !releaseFailed;
    }

    ghost predicate IsReleased()
      reads this
    {
      released && calls == [LockThread, CreateMutex, ReleaseMutex, CloseHandle, UnlockThread]
    }
  }

  /** Releasing any number of times makes each call once, and every answer says how those calls went. */
  method ReleaseRepeatedly(mutex: Mutex, times: nat, releases: bool, closes: bool) returns (answers: seq<bool>)
    requires mutex.IsHeld()
    modifies mutex
    ensures |answers| == times && (forall k :: 0 <= k < times ==> answers[k] == (releases && closes))
    ensures if times == 0 then mutex.IsHeld() else mutex.IsReleased()
  {
    answers := [];
    for i := 0 to times
      invariant |answers| == i && (if i == 0 then mutex.IsHeld() else mutex.IsReleased())
      invariant i > 0 ==> mutex.releaseFailed == !(releases && closes)
      invariant forall k :: 0 <= k < i ==> answers[k] == (releases && closes)
    {
      // only the first of the calls is made
      var ok := mutex.Release(releases && i == 0, closes);
      answers := answers + [ok];
    }
  }

  /** The mutex is acquired exactly when the first wait that does not merely time out finds it free or abandoned. */
  lemma {:induction false} AwaitedIff(waits: seq<Wait>)
    ensures Awaited(waits) == Acquired <==>
      exists i :: FirstAnswer(waits, i) && (waits[i].Object? || waits[i].AbandonedObject?)
    ensures Awaited(waits) == StillWaiting <==> forall k :: 0 <= k < |waits| ==> waits[k] == Timeout(false)
  {
    if waits != [] && waits[0] == Timeout(false) {
      AwaitedIff(waits[1..]);
      forall i | FirstAnswer(waits, i) ensures FirstAnswer(waits[1..], i - 1) && waits[1..][i - 1] == waits[i] {
        assert forall k :: 0 <= k < i - 1 ==> waits[1..][k] == waits[k + 1];
      }
      forall i | FirstAnswer(waits[1..], i) ensures FirstAnswer(waits, i + 1) && waits[1..][i] == waits[i + 1] {
        assert forall k :: 0 < k < i + 1 ==> waits[k] == waits[1..][k - 1];
      }
      assert forall k :: 0 < k < |waits| ==> waits[k] == waits[1..][k - 1];
    } else if waits != [] {
      assert FirstAnswer(waits, 0);
    }
  }

  ghost predicate FirstAnswer(waits: seq<Wait>, i: int) {
    0 <= i < |waits| && waits[i] != Timeout(false) && forall k :: 0 <= k < i ==> waits[k] == Timeout(false)
  }
}
