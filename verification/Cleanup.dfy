/** One automatic cleanup (lifecycle.go): two equal inspections around the plan, one retry, and what is then removed.
    Sandbox processes may start or exit between any two steps; the lifecycle mutex is held. */
module Cleanup {
  import opened Common
  import opened Lifecycle

  // ---------------------------------------------------------------- one inspection

  datatype Kind = Launcher | Client | Other
  datatype Process = Process(kind: Kind, sandbox: SandboxId, parent: SandboxId)

  /** What one process listing shows: the Sandbox processes, and the process at the recorded identity, if any. */
  datatype Census = Census(processes: seq<Process>, snapshot: Option<SandboxId>)

  function CountWhere(processes: seq<Process>, keep: Process -> bool): nat {
    if processes == [] then 0
    else CountWhere(processes[..|processes| - 1], keep) + (if keep(processes[|processes| - 1]) then 1 else 0)
  }

  /** The owned Sandbox and nothing else: its launcher, and perhaps its client. */
  ghost predicate OwnedTree(active: ActiveSession, census: Census) {
    && census.snapshot == Some(active.sandbox)
    && (forall p :: p in census.processes && p.kind == Launcher ==> p.sandbox == active.sandbox)
    && (forall p :: p in census.processes && p.kind == Client ==> p.parent == active.sandbox)
    && CountWhere(census.processes, (p: Process) => p.kind == Launcher) == 1
    && CountWhere(census.processes, (p: Process) => p.kind == Client) <= 1
  }

  /** validateCleanupProcessOwnership: with the Sandbox gone nothing may run; otherwise the owned tree and only that. */
  method ValidateOwnership(active: ActiveSession, census: Census) returns (ok: bool)
    ensures ok <==> if census.snapshot.None? then census.processes == [] else OwnedTree(active, census)
  {
    if census.snapshot.None? {
      return |census.processes| == 0;
    }
    if census.snapshot.value != active.sandbox {
      return false;
    }
    var launchers, clients := 0, 0;
    ghost var isLauncher, isClient := (p: Process) => p.kind == Launcher, (p: Process) => p.kind == Client;
    for i := 0 to |census.processes|
      invariant launchers == CountWhere(census.processes[..i], isLauncher)
      invariant clients == CountWhere(census.processes[..i], isClient)
      invariant forall p :: p in census.processes[..i] && p.kind == Launcher ==> p.sandbox == active.sandbox
      invariant forall p :: p in census.processes[..i] && p.kind == Client ==> p.parent == active.sandbox
    {
      var process := census.processes[i];
      assert census.processes[..i + 1][..i] == census.processes[..i];
      match process.kind {
        case Launcher =>
          if process.sandbox != active.sandbox {
            return false;
          }
          launchers := launchers + 1;
        case Client =>
          if process.parent != active.sandbox {
            return false;
          }
          clients := clients + 1;
        case Other =>
      }
    }
    assert census.processes[..|census.processes|] == census.processes;
    ok := launchers == 1 && clients <= 1;
  }

  /** What an inspection sees in a process listing: only the recorded Sandbox, or nothing at all. None is a refusal; a
      listing that cannot be had is None as well. */
  ghost function Sighted(active: Option<ActiveSession>, listing: Option<Census>): Option<Protection> {
    if listing.None? then None
    else if active.Some? && OwnedTree(active.value, listing.value) then Some(Protection(active, false))
    else if listing.value.processes == [] && (active.Some? ==> listing.value.snapshot.None?) then
      Some(Protection(active, true))
    else None
  }

  /** inspectCleanupProtection. Without a record the snapshot is not looked at. */
  method InspectProtection(active: Option<ActiveSession>, listing: Option<Census>)
    returns (protection: Option<Protection>)
    ensures protection == Sighted(active, listing)
  {
    if listing.None? {
      return None;
    }
    var census := listing.value;
    if active.None? {
      return if |census.processes| > 0 then None else Some(Protection(None, true));
    }
    var ok := ValidateOwnership(active.value, census);
    if !ok {
      return None;
    }
    return Some(Protection(active, census.snapshot.None?));
  }

  // ---------------------------------------------------------------- the cleanup

  datatype Deletion = SshConfig | RunFolder(run: RunId) | ActiveRecord

  datatype Outcome = Cleaned(removed: nat) | Refused | IdentityChanged | Broken(removed: nat) | Exhausted

  /** The end of one attempt: an answer, or another attempt under what has been seen. */
  datatype Attempted = Answer(answer: Outcome) | Again(protection: Protection)

  /** How the removal of one run directory ends: it stays; it is gone, but that cannot be verified; it is gone and
      counted, but the root is found changed; or all is well. */
  datatype Removal = Stays | Unverified | RootChanged | Works

  /** What a cleanup meets: the process listings in the order in which it asks for them, which plans can be made,
      whether the data root is still the one it opened, and how the removals end. */
  datatype World = World(
    listing: nat -> Option<Census>, planned: nat -> bool, rooted: bool, sshRemoved: bool, removal: RunId -> Removal,
    recordRemoved: bool)

  function ProtectedRun(protection: Protection): Option<RunId> {
    if protection.gone || protection.active.None? then None else Some(protection.active.value.run)
  }

  /** The directories a plan made under this protection may hold. */
  predicate MayRemove(protection: Protection, run: RunId) {
    ProtectedRun(protection) != Some(run)
  }

  /** Every removal under this protection works. */
  ghost predicate RemovalWorks(world: World, protection: Protection, runs: set<RunId>) {
    && (protection.gone ==> world.sshRemoved && (protection.active.Some? ==> world.recordRemoved))
    && forall run :: run in runs && MayRemove(protection, run) ==> world.removal(run) == Works
  }

  class DataRoot {
    var active: Option<ActiveSession>
    var runs: set<RunId>
    var sshConfig: bool
    /** What the inspections answered, and what was removed, in order. */
    ghost var sightings: seq<Option<Protection>>
    ghost var deletions: seq<Deletion>

    constructor (active: Option<ActiveSession>, runs: set<RunId>, sshConfig: bool)
      ensures this.active == active && this.runs == runs && this.sshConfig == sshConfig
      ensures sightings == [] && deletions == []
    {
      this.active, this.runs, this.sshConfig := active, runs, sshConfig;
      sightings, deletions := [], [];
    }

    /** An inspection, of whatever processes there are at that moment. */
    method Inspect(listing: Option<Census>) returns (protection: Option<Protection>)
      modifies this`sightings
      ensures protection == Sighted(active, listing) && sightings == old(sightings) + [protection]
    {
      protection := InspectProtection(active, listing);
      sightings := sightings + [protection];
    }

    /** planInactiveRunDirectories: the run directories but the protected one, in some order. */
    method Plan(protection: Protection, planned: bool) returns (candidates: Option<seq<RunId>>)
      ensures candidates.Some? <==> planned
      ensures candidates.Some? ==> forall run :: run in candidates.value <==> run in runs && MayRemove(protection, run)
      ensures candidates.Some? ==> NoRepeat(candidates.value)
    {
      if !planned {
        return None;
      }
      var rest, plan: seq<RunId> := runs, [];
      while rest != {}
        invariant rest <= runs && NoRepeat(plan)
        invariant forall run :: run in plan <==> run in runs && run !in rest && MayRemove(protection, run)
        decreases rest
      {
        var run :| run in rest;
        rest := rest - {run};
        if MayRemove(protection, run) {
          plan := plan + [run];
        }
      }
      return Some(plan);
    }

    /** removeManagedSSHConfig; a missing file is fine. */
    method RemoveSshConfig(world: World) returns (ok: bool)
      modifies this`sshConfig, this`deletions
      ensures ok == world.sshRemoved
      ensures ok ==> !sshConfig && deletions == old(deletions) + (if old(sshConfig) then [SshConfig] else [])
      ensures !ok ==> sshConfig == old(sshConfig) && deletions == old(deletions)
    {
      ok := world.sshRemoved;
      if ok && sshConfig {
        sshConfig := false;
        deletions := deletions + [SshConfig];
      }
    }

    /** removeInactiveRunDirectories: one candidate after another, up to the first failure. */
    method RemoveRuns(candidates: seq<RunId>, world: World) returns (ok: bool, removed: nat, ghost gone: nat)
      requires NoRepeat(candidates) && forall run :: run in candidates ==> run in runs
      modifies this`runs, this`deletions
      ensures ok <==> forall run :: run in candidates ==> world.removal(run) == Works
      ensures gone <= |candidates| && removed <= gone <= removed + 1 && (ok ==> gone == removed == |candidates|)
      ensures runs == old(runs) - Elements(candidates[..gone])
      ensures deletions == old(deletions) + Directories(candidates[..gone])
    {
      removed, ok, gone := 0, true, 0;
      assert Elements(candidates[..0]) == {} && Directories(candidates[..0]) == [];
      while removed < |candidates|
        invariant gone == removed <= |candidates|
        invariant runs == old(runs) - Elements(candidates[..removed])
        invariant deletions == old(deletions) + Directories(candidates[..removed])
        invariant forall k :: 0 <= k < removed ==> world.removal(candidates[k]) == Works
      {
        var removal := world.removal(candidates[removed]);
        if removal == Stays {
          ok := false;
          return;
        }
        OneMoreDirectory(candidates, removed);
        runs := runs - {candidates[removed]};
        deletions := deletions + [RunFolder(candidates[removed])];
        gone := gone + 1;
        if removal == Unverified {
          ok := false;
          return;
        }
        removed := removed + 1;
        if removal == RootChanged {
          ok := false;
          return;
        }
      }
    }

    /** removeActiveSessionFromCleanupRoot. */
    method RemoveActive(world: World) returns (ok: bool)
      modifies this`active, this`deletions
      ensures ok == world.recordRemoved
      ensures ok ==> active == None && deletions == old(deletions) + [ActiveRecord]
      ensures !ok ==> active == old(active) && deletions == old(deletions)
    {
      ok := world.recordRemoved;
      if ok {
        active := None;
        deletions := deletions + [ActiveRecord];
      }
    }

    /** cleanupStaleStateWithInspector, after reconciliation. */
    method Clean(world: World) returns (outcome: Outcome)
      requires sightings == [] && deletions == []
      modifies this
      // the inspections: two around a plan, and a third exactly after the owned Sandbox was seen to exit
      ensures 1 <= |sightings| <= 3 && Looked(sightings, old(active), world)
      ensures |sightings| >= 2 <==> sightings[0].Some? && world.planned(0)
      ensures |sightings| == 3 <==> |sightings| >= 2 && OwnedExitSeen(sightings) && world.planned(1)
      // the answer: a refusal for what was seen, a changed identity, or, once two inspections agree, the removal
      ensures outcome != Exhausted
      ensures outcome == Refused <==> sightings[|sightings| - 1].None?
      ensures outcome == IdentityChanged <==>
        (&& |sightings| >= 2 && sightings[|sightings| - 1].Some?
         && sightings[|sightings| - 2] != sightings[|sightings| - 1]
         && !(|sightings| == 2 && OwnedExitSeen(sightings)))
      ensures outcome.Cleaned? ==> Settled(sightings)
      // nothing is removed except under two equal inspections around the plan
      ensures if Settled(sightings) && world.rooted then
          RemovedUnder(Last(sightings), world, outcome, old(runs), old(active), old(sshConfig))
        else deletions == [] && runs == old(runs) && active == old(active) && sshConfig == old(sshConfig)
    {
      var first := Inspect(world.listing(0));
      if first.None? {
        return Refused;
      }
      var protection := first.value;
      for attempt := 0 to 2
        invariant deletions == [] && runs == old(runs) && active == old(active) && sshConfig == old(sshConfig)
        invariant |sightings| == attempt + 1 && sightings[attempt] == Some(protection) && protection.active == active
        invariant Looked(sightings, active, world)
        invariant attempt == 1 ==> world.planned(0) && OwnedExitSeen(sightings)
        invariant attempt <= 1
      {
        var attempted := Attempt(attempt, protection, world);
        assert Looked(sightings, old(active), world);
        match attempted
        case Answer(answer) => return answer;
        case Again(seen) => protection := seen;
      }
      return Exhausted;
    }

    /** One plan, and the inspection after it. */
    method Attempt(attempt: nat, protection: Protection, world: World) returns (attempted: Attempted)
      requires deletions == [] && sightings != [] && sightings[|sightings| - 1] == Some(protection)
      requires protection.active == active
      modifies this
      ensures sightings == old(sightings) +
        if world.planned(attempt) then [Sighted(old(active), world.listing(attempt + 1))] else []
      ensures !world.planned(attempt) ==> attempted == Answer(Broken(0))
      ensures world.planned(attempt) ==>
        var seen := sightings[|sightings| - 1];
        if seen.None? then attempted == Answer(Refused)
        else if seen.value == protection then attempted.Answer? && (!world.rooted ==> attempted.answer == Broken(0))
        else if attempt == 0 && ObservedOwnedExit(protection, seen.value) then attempted == Again(seen.value)
        else attempted == Answer(IdentityChanged)
      ensures if world.planned(attempt) && sightings[|sightings| - 1] == Some(protection) && world.rooted then
          attempted.Answer? &&
          RemovedUnder(protection, world, attempted.answer, old(runs), old(active), old(sshConfig))
        else deletions == [] && runs == old(runs) && active == old(active) && sshConfig == old(sshConfig)
    {
      var plan := Plan(protection, world.planned(attempt));
      if plan.None? {
        return Answer(Broken(0));
      }
      var revalidated := Inspect(world.listing(attempt + 1));
      if revalidated.None? {
        return Answer(Refused);
      }
      if revalidated.value != protection {
        if attempt == 0 && ObservedOwnedExit(protection, revalidated.value) {
          return Again(revalidated.value);
        }
        return Answer(IdentityChanged);
      }
      if !world.rooted {
        return Answer(Broken(0));
      }
      var answer := RemovePlanned(protection, plan.value, world);
      return Answer(answer);
    }

    /** What a removal leaves under a protection, and what it answers: `Cleaned` exactly when every call works. */
    ghost predicate RemovedUnder(protection: Protection, world: World, outcome: Outcome, runs0: set<RunId>,
                                 active0: Option<ActiveSession>, sshConfig0: bool)
      reads this
    {
      && (outcome.Cleaned? || outcome.Broken?)
      && (outcome.Cleaned? <==> RemovalWorks(world, protection, runs0))
      && Allowed(deletions, protection)
      && (outcome.Cleaned? && protection.gone ==> runs == {} && active == None && !sshConfig)
      && (outcome.Cleaned? && !protection.gone ==>
            runs == runs0 * ActiveRun(active0) && active == active0 && sshConfig == sshConfig0)
      && runs == runs0 - RemovedRuns(deletions)
      && active == (if ActiveRecord in deletions then None else active0)
      && (ActiveRecord in deletions ==> runs == {})
      // what is counted
      && outcome.removed <= |RemovedRuns(deletions)| <= outcome.removed + (if outcome.Cleaned? then 0 else 1)
    }

    /** What follows two equal inspections. */
    method RemovePlanned(protection: Protection, candidates: seq<RunId>, world: World) returns (outcome: Outcome)
      requires deletions == [] && NoRepeat(candidates) && protection.active == active
      requires forall run :: run in candidates <==> run in runs && MayRemove(protection, run)
      modifies this`active, this`runs, this`sshConfig, this`deletions
      ensures RemovedUnder(protection, world, outcome, old(runs), old(active), old(sshConfig))
    {
      if protection.gone {
        var gone := RemoveSshConfig(world);
        if !gone {
          return Broken(0);
        }
      }
      ghost var before := deletions;
      var ok, removed;
      ghost var count;
      ok, removed, count := RemoveRuns(candidates, world);
      RemovalAllowed(before, candidates[..count], protection);
      CountElements(candidates, count);
      if !ok {
        return Broken(removed);
      }
      assert candidates[..count] == candidates;
      if !protection.gone {
        return Cleaned(removed);
      }
      assert runs == {};
      if protection.active.Some? {
        ghost var most := deletions;
        ok := RemoveActive(world);
        if !ok {
          return Broken(removed);
        }
        RecordLast(most, protection);
      }
      return Cleaned(removed);
    }
  }

  function Elements(candidates: seq<RunId>): set<RunId> {
    set run | run in candidates
  }

  function Directories(candidates: seq<RunId>): (r: seq<Deletion>)
    ensures |r| == |candidates| && forall k :: 0 <= k < |r| ==> r[k] == RunFolder(candidates[k])
  {
    seq(|candidates|, k requires 0 <= k < |candidates| => RunFolder(candidates[k]))
  }

  lemma OneMoreDirectory(candidates: seq<RunId>, n: nat)
    requires n < |candidates|
    ensures Elements(candidates[..n + 1]) == Elements(candidates[..n]) + {candidates[n]}
    ensures Directories(candidates[..n + 1]) == Directories(candidates[..n]) + [RunFolder(candidates[n])]
  {
    assert candidates[..n + 1] == candidates[..n] + [candidates[n]];
  }

  lemma {:induction false} CountElements(candidates: seq<RunId>, n: nat)
    requires n <= |candidates| && NoRepeat(candidates)
    ensures |Elements(candidates[..n])| == n
  {
    if n > 0 {
      CountElements(candidates, n - 1);
      OneMoreDirectory(candidates, n - 1);
      var last := candidates[n - 1];
      assert last !in candidates[..n - 1];
      assert last !in Elements(candidates[..n - 1]);
    } else {
      assert Elements(candidates[..0]) == {};
    }
  }

  /** The last two inspections agree. */
  ghost predicate Settled(sightings: seq<Option<Protection>>) {
    |sightings| >= 2 && sightings[|sightings| - 1] == sightings[|sightings| - 2] && sightings[|sightings| - 1].Some?
  }

  ghost function Last(sightings: seq<Option<Protection>>): Protection
    requires sightings != [] && sightings[|sightings| - 1].Some?
  {
    sightings[|sightings| - 1].value
  }

  /** Each inspection answers for the listing it got. */
  ghost predicate Looked(sightings: seq<Option<Protection>>, active: Option<ActiveSession>, world: World) {
    forall k :: 0 <= k < |sightings| ==> sightings[k] == Sighted(active, world.listing(k))
  }

  /** Between the first two inspections the owned Sandbox has exited, and nothing else. */
  ghost predicate OwnedExitSeen(sightings: seq<Option<Protection>>) {
    && |sightings| >= 2 && sightings[0].Some? && sightings[1].Some? && sightings[0].value.active.Some?
    && !sightings[0].value.gone && sightings[1].value == sightings[0].value.(gone := true)
  }

  function RemovedRuns(deletions: seq<Deletion>): set<RunId> {
    set d | d in deletions && d.RunFolder? :: d.run
  }

  /** The deletions a settled protection allows, in their order: with the Sandbox gone, first the SSH config and last
      the active record; never the run of a Sandbox that is alive. */
  ghost predicate Allowed(deletions: seq<Deletion>, protection: Protection) {
    && (forall k :: 0 <= k < |deletions| && deletions[k] == SshConfig ==> k == 0 && protection.gone)
    && (forall k :: 0 <= k < |deletions| && deletions[k] == ActiveRecord ==> k == |deletions| - 1 && protection.gone)
    && (forall k :: 0 <= k < |deletions| && deletions[k].RunFolder? ==> MayRemove(protection, deletions[k].run))
  }

  lemma RemovalAllowed(before: seq<Deletion>, candidates: seq<RunId>, protection: Protection)
    requires before == [] || (before == [SshConfig] && protection.gone)
    requires forall run :: run in candidates ==> MayRemove(protection, run)
    ensures Allowed(before + Directories(candidates), protection)
    ensures RemovedRuns(before + Directories(candidates)) == Elements(candidates)
    ensures ActiveRecord !in before + Directories(candidates)
  {
    var all := before + Directories(candidates);
    forall run ensures run in RemovedRuns(all) <==> run in candidates {
      if run in RemovedRuns(all) {
        var k :| 0 <= k < |all| && all[k] == RunFolder(run);
        assert candidates[k - |before|] == run;
      }
      if run in candidates {
        var k :| 0 <= k < |candidates| && candidates[k] == run;
        assert all[|before| + k] == RunFolder(run);
      }
    }
  }

  lemma RecordLast(most: seq<Deletion>, protection: Protection)
    requires Allowed(most, protection) && protection.gone && ActiveRecord !in most
    ensures Allowed(most + [ActiveRecord], protection)
    ensures RemovedRuns(most + [ActiveRecord]) == RemovedRuns(most)
  {
    assert forall d :: d in most + [ActiveRecord] <==> d in most || d == ActiveRecord;
  }
}
