/** Which host folder lies under which guest folder: the renderer (config.go) with its overlap checks (provisioning.go),
    on paths as lists of components. */
module PathMapping {
  import opened Common
  import opened CaseFold

  /** A cleaned absolute path: the volume, then one name per folder. */
  type Path = p: seq<string> | Clean(p) witness ["C:"]

  predicate Name(part: string) {
    part != "" && part != "." && part != ".." && '\\' !in part
  }

  predicate Clean(parts: seq<string>) {
    parts != [] && forall k :: 0 <= k < |parts| ==> Name(parts[k])
  }

  function FoldAll(parts: seq<string>): (r: seq<string>)
    ensures |r| == |parts| && forall k :: 0 <= k < |r| ==> r[k] == Lower(parts[k])
  {
    seq(|parts|, k requires 0 <= k < |parts| => Lower(parts[k]))
  }

  // ---------------------------------------------------------------- containment and overlap

  function CommonPrefix(a: seq<string>, b: seq<string>): (n: nat)
    ensures n <= |a| && n <= |b| && a[..n] == b[..n]
    ensures n < |a| && n < |b| ==> a[n] != b[n]
    ensures n == |a| && n == |b| ==> a == b
  {
    if a == [] || b == [] || a[0] != b[0] then 0
    else
      var n := CommonPrefix(a[1..], b[1..]);
      assert a[..n + 1] == [a[0]] + a[1..][..n] && b[..n + 1] == [b[0]] + b[1..][..n];
      n + 1
  }

  /** filepath.Rel on cleaned absolute paths, as components; it fails across volumes. */
  function Rel(base: seq<string>, target: seq<string>): (r: Option<seq<string>>)
    requires base != [] && target != []
    ensures r.Some? ==> r.value != []
  {
    if base == target then Some(["."])
    else if base[0] != target[0] then None
    else
      var n := CommonPrefix(base, target);
      Some(seq(|base| - n, _ => "..") + target[n..])
  }

  predicate HostPathContains(directory: Path, path: Path) {
    var relative := Rel(FoldAll(directory), FoldAll(path));
    relative.Some? && (relative.value == ["."] || relative.value[0] != "..")
  }

  predicate HostPathsOverlap(left: Path, right: Path) {
    HostPathContains(left, right) || HostPathContains(right, left)
  }

  lemma FoldedName(part: string)
    ensures Lower(part) == ".." ==> part == ".."
  {
    assert forall c: char :: LowerChar(c) == '.' ==> c == '.';
  }

  lemma FoldedNames(path: Path)
    ensures forall k :: 0 <= k < |path| ==> FoldAll(path)[k] != ".."
  {
    forall k | 0 <= k < |path| ensures Lower(path[k]) != ".." {
      FoldedName(path[k]);
    }
  }

  /** The relative path never starts with ".." exactly when the folder is a prefix, up to case. */
  lemma ContainsIsPrefix(directory: Path, path: Path)
    ensures HostPathContains(directory, path) <==> FoldAll(directory) <= FoldAll(path)
  {
    var a, b := FoldAll(directory), FoldAll(path);
    FoldedNames(path);
    if a != b && a[0] == b[0] {
      var n := CommonPrefix(a, b);
      if n == |a| {
        assert a == a[..n] == b[..n];
        assert n < |b|;
        assert Rel(a, b).value[0] == b[n];
      } else {
        assert Rel(a, b).value[0] == "..";
        assert n < |b| ==> a[n] != b[n];
      }
    }
  }

  ghost predicate Disjoint(left: seq<string>, right: seq<string>) {
    !(FoldAll(left) <= FoldAll(right)) && !(FoldAll(right) <= FoldAll(left))
  }

  /** No folder of the list lies in another. */
  ghost predicate Antichain(paths: seq<seq<string>>) {
    forall i, j :: 0 <= i < |paths| && 0 <= j < |paths| && i != j ==> Disjoint(paths[i], paths[j])
  }

  lemma OverlapIsMeeting(left: Path, right: Path)
    ensures HostPathsOverlap(left, right) <==> !Disjoint(left, right)
  {
    ContainsIsPrefix(left, right);
    ContainsIsPrefix(right, left);
  }

  lemma AntichainAppend(paths: seq<seq<string>>, path: seq<string>)
    ensures Antichain(paths + [path]) <==> Antichain(paths) && forall i :: 0 <= i < |paths| ==> Disjoint(paths[i], path)
  {
    var all := paths + [path];
    if Antichain(all) {
      forall i, j | 0 <= i < |paths| && 0 <= j < |paths| && i != j ensures Disjoint(paths[i], paths[j]) {
        assert Disjoint(all[i], all[j]);
      }
      forall i | 0 <= i < |paths| ensures Disjoint(paths[i], path) {
        assert Disjoint(all[i], all[|paths|]);
      }
    }
  }

  lemma AntichainFromPairs(paths: seq<seq<string>>)
    requires forall i, j :: 0 <= i < j < |paths| ==> Disjoint(paths[i], paths[j])
    ensures Antichain(paths)
  {
    forall i, j | 0 <= i < |paths| && 0 <= j < |paths| && i != j ensures Disjoint(paths[i], paths[j]) {
      assert i < j ==> Disjoint(paths[i], paths[j]);
      assert j < i ==> Disjoint(paths[j], paths[i]);
    }
  }

  ghost predicate Apart(path: seq<string>, others: seq<seq<string>>) {
    forall j :: 0 <= j < |others| ==> Disjoint(path, others[j])
  }

  method Overlap(left: Path, right: Path) returns (overlap: bool)
    ensures overlap <==> !Disjoint(left, right)
  {
    OverlapIsMeeting(left, right);
    overlap := HostPathsOverlap(left, right);
  }

  method OverlapsAny(path: Path, others: seq<Path>) returns (found: bool)
    ensures found <==> !Apart(path, others)
  {
    for j := 0 to |others|
      invariant forall k :: 0 <= k < j ==> Disjoint(path, others[k])
    {
      var overlap := Overlap(path, others[j]);
      if overlap {
        return true;
      }
    }
    return false;
  }

  /** The nested loops of the checks. */
  method FirstOverlap(paths: seq<Path>) returns (found: bool)
    ensures found <==> !Antichain(paths)
  {
    for left := 0 to |paths|
      invariant forall i :: 0 <= i < left ==> Apart(paths[i], paths[i + 1..])
    {
      var overlaps := OverlapsAny(paths[left], paths[left + 1..]);
      if overlaps {
        NotApart(paths, left);
        return true;
      }
    }
    forall i, j | 0 <= i < j < |paths| ensures Disjoint(paths[i], paths[j]) {
      assert Apart(paths[i], paths[i + 1..]);
      assert paths[i + 1..][j - i - 1] == paths[j];
    }
    AntichainFromPairs(paths);
    return false;
  }

  lemma NotApart(paths: seq<seq<string>>, left: nat)
    requires left < |paths| && !Apart(paths[left], paths[left + 1..])
    ensures !Antichain(paths)
  {
    var j :| 0 <= j < |paths| - left - 1 && !Disjoint(paths[left], paths[left + 1..][j]);
    assert !Disjoint(paths[left], paths[left + 1 + j]);
  }

  // ---------------------------------------------------------------- rendering

  const INPUT: Path := ["C:", "SandboxBootstrap"]
  const STATUS: Path := ["C:", "SandboxStatus"]
  const CACHE: Path := ["C:", "HerdrSandbox", "cache"]
  const MODELS: Path := ["C:", "Models"]
  const WORKTREES: Path := ["C:", "Worktrees"]
  const RESERVED: seq<Path> := [INPUT, STATUS, CACHE, MODELS, WORKTREES]
  const MAXIMUM_MOUNTS := 16
  const MINIMUM_MEMORY := 2048

  predicate Alphanumeric(c: char) {
    'A' <= c <= 'Z' || 'a' <= c <= 'z' || '0' <= c <= '9'
  }

  /** The pattern for mount and workspace names. */
  predicate ValidName(name: string) {
    1 <= |name| <= 64 && Alphanumeric(name[0]) &&
    forall k :: 0 <= k < |name| ==> Alphanumeric(name[k]) || name[k] == '.' || name[k] == '_' || name[k] == '-'
  }

  /** A letter or digit, and at most 63 more characters of a name. */
  lemma ValidNameIff(name: string)
    ensures ValidName(name) <==>
      name != [] && |name[1..]| <= 63 && name[0] !in "._-" &&
      forall c :: c in name ==>
        c in "._-" || 'a' <= c <= 'z' || 'A' <= c <= 'Z' || '0' <= c <= '9'
  {
    assert forall k :: 0 <= k < |name| ==> name[k] in name;
  }

  lemma ValidNameIsName(name: string)
    requires ValidName(name)
    ensures Name(name)
  {
    assert name[0] != '.';
  }

  function GuestMount(name: string): Path
    requires ValidName(name)
  {
    ValidNameIsName(name);
    ["C:", "Mounts", name]
  }

  function GuestWorkspace(name: string): Path
    requires ValidName(name)
  {
    ValidNameIsName(name);
    ["C:", "Workspaces", name]
  }

  /** A configured path: whether it is absolute, and what filepath.Clean makes of it. */
  datatype Planned = Planned(absolute: bool, path: Path)
  datatype Mount = Mount(name: string, host: Planned, guest: Planned, readOnly: bool)
  datatype Workspace = Workspace(name: string, host: Planned, guest: Planned)
  datatype Plan = Plan(
    input: Planned, status: Planned, cache: Planned, worktrees: Option<Planned>, models: Option<Planned>,
    mounts: seq<Mount>, workspaces: seq<Workspace>, memory: int, audioOutput: bool, audioInput: bool)
  datatype Mapping = Mapping(host: Path, guest: Path, readOnly: bool)

  function HostsOf(mappings: seq<Mapping>): (r: seq<Path>)
    ensures |r| == |mappings| && forall k :: 0 <= k < |r| ==> r[k] == mappings[k].host
  {
    seq(|mappings|, k requires 0 <= k < |mappings| => mappings[k].host)
  }

  function GuestsOf(mappings: seq<Mapping>): (r: seq<Path>)
    ensures |r| == |mappings| && forall k :: 0 <= k < |r| ==> r[k] == mappings[k].guest
  {
    seq(|mappings|, k requires 0 <= k < |mappings| => mappings[k].guest)
  }

  function OptionalMapping(host: Option<Planned>, guest: Path): seq<Mapping> {
    if host.Some? then [Mapping(host.value.path, guest, false)] else []
  }

  function OptionalMappings(plan: Plan): seq<Mapping> {
    OptionalMapping(plan.worktrees, WORKTREES) + OptionalMapping(plan.models, MODELS)
  }

  function MountMapping(mount: Mount): Mapping {
    Mapping(mount.host.path, mount.guest.path, mount.readOnly)
  }

  function WorkspaceMapping(workspace: Workspace): Mapping {
    Mapping(workspace.host.path, workspace.guest.path, false)
  }

  function MountMappings(mounts: seq<Mount>): (r: seq<Mapping>)
    ensures |r| == |mounts| && forall k :: 0 <= k < |r| ==> r[k] == MountMapping(mounts[k])
  {
    seq(|mounts|, k requires 0 <= k < |mounts| => MountMapping(mounts[k]))
  }

  function WorkspaceMappings(workspaces: seq<Workspace>): (r: seq<Mapping>)
    ensures |r| == |workspaces| && forall k :: 0 <= k < |r| ==> r[k] == WorkspaceMapping(workspaces[k])
  {
    seq(|workspaces|, k requires 0 <= k < |workspaces| => WorkspaceMapping(workspaces[k]))
  }

  /** The folders the user asked for, in order. */
  function Requested(plan: Plan): seq<Mapping> {
    MountMappings(plan.mounts) + WorkspaceMappings(plan.workspaces)
  }

  function OwnMappings(plan: Plan): seq<Mapping> {
    [Mapping(plan.input.path, INPUT, true), Mapping(plan.status.path, STATUS, false),
      Mapping(plan.cache.path, CACHE, false)]
  }

  /** The mappings as the configuration lists them. */
  function Listed(plan: Plan): seq<Mapping> {
    OwnMappings(plan)[..1] + (OptionalMappings(plan) + Requested(plan)) + OwnMappings(plan)[1..]
  }

  ghost predicate Distinct(guests: seq<Path>) {
    forall i, j :: 0 <= i < j < |guests| ==> FoldAll(guests[i]) != FoldAll(guests[j])
  }

  predicate Absolute(plan: Plan) {
    && plan.input.absolute && plan.status.absolute && plan.cache.absolute
    && (plan.worktrees.Some? ==> plan.worktrees.value.absolute)
    && (plan.models.Some? ==> plan.models.value.absolute)
  }

  predicate MountOk(mount: Mount) {
    && ValidName(mount.name) && mount.host.absolute && mount.guest.absolute
    && FoldAll(mount.guest.path) == FoldAll(GuestMount(mount.name))
  }

  predicate WorkspaceOk(workspace: Workspace) {
    workspace.host.absolute && workspace.guest.absolute
  }

  function OwnHosts(plan: Plan): seq<Path> {
    HostsOf(OwnMappings(plan) + OptionalMappings(plan))
  }

  /** What rendering accepts, over the whole plan at once. */
  ghost predicate Accepted(plan: Plan) {
    && |plan.mounts| <= MAXIMUM_MOUNTS && plan.memory >= MINIMUM_MEMORY && Absolute(plan)
    && (forall k :: 0 <= k < |plan.mounts| ==> MountOk(plan.mounts[k]))
    && (forall k :: 0 <= k < |plan.workspaces| ==> WorkspaceOk(plan.workspaces[k]))
    && Antichain(OwnHosts(plan) + HostsOf(Requested(plan)))
    && Distinct(RESERVED + GuestsOf(Requested(plan)))
  }

  /** Every folder of a plan that renders is an absolute path, and a mount's is where its name puts it. */
  lemma AcceptedFolders(plan: Plan)
    requires Accepted(plan)
    ensures plan.input.absolute && plan.status.absolute && plan.cache.absolute
    ensures plan.worktrees.Some? ==> plan.worktrees.value.absolute
    ensures plan.models.Some? ==> plan.models.value.absolute
    ensures forall m :: m in plan.mounts ==>
      m.host.absolute && m.guest.absolute && FoldAll(m.guest.path) == FoldAll(["C:", "Mounts", m.name])
    ensures forall w :: w in plan.workspaces ==> w.host.absolute && w.guest.absolute
  {
    forall m | m in plan.mounts ensures MountOk(m) {
      var k :| 0 <= k < |plan.mounts| && plan.mounts[k] == m;
    }
    forall w | w in plan.workspaces ensures WorkspaceOk(w) {
      var k :| 0 <= k < |plan.workspaces| && plan.workspaces[k] == w;
    }
  }

  // ---------------------------------------------------------------- the renderer's loops

  ghost predicate Admitted(own: seq<Path>, requests: seq<Mapping>) {
    Antichain(own + HostsOf(requests)) && Distinct(RESERVED + GuestsOf(requests))
  }

  ghost function FoldedSet(guests: seq<Path>): set<seq<string>> {
    set k | 0 <= k < |guests| :: FoldAll(guests[k])
  }

  lemma DistinctAppend(guests: seq<Path>, guest: Path)
    ensures Distinct(guests + [guest]) <==> Distinct(guests) && FoldAll(guest) !in FoldedSet(guests)
    ensures FoldedSet(guests + [guest]) == FoldedSet(guests) + {FoldAll(guest)}
  {
    var all := guests + [guest];
    if Distinct(all) {
      forall i, j | 0 <= i < j < |guests| ensures FoldAll(guests[i]) != FoldAll(guests[j]) {
        assert FoldAll(all[i]) != FoldAll(all[j]);
      }
      forall k | 0 <= k < |guests| ensures FoldAll(guests[k]) != FoldAll(guest) {
        assert FoldAll(all[k]) != FoldAll(all[|guests|]);
      }
    }
    forall f ensures f in FoldedSet(all) <==> f in FoldedSet(guests) + {FoldAll(guest)} {
      if f in FoldedSet(guests) {
        var k :| 0 <= k < |guests| && FoldAll(guests[k]) == f;
        assert FoldAll(all[k]) == f;
      }
      if f == FoldAll(guest) {
        assert FoldAll(all[|guests|]) == f;
      }
    }
  }

  lemma RequestAppend(own: seq<Path>, requests: seq<Mapping>, m: Mapping)
    ensures own + HostsOf(requests + [m]) == (own + HostsOf(requests)) + [m.host]
    ensures RESERVED + GuestsOf(requests + [m]) == (RESERVED + GuestsOf(requests)) + [m.guest]
  {
  }

  lemma AdmittedAppend(own: seq<Path>, requests: seq<Mapping>, m: Mapping)
    requires Admitted(own, requests)
    ensures Admitted(own, requests + [m]) <==>
      Apart(m.host, own + HostsOf(requests)) && FoldAll(m.guest) !in FoldedSet(RESERVED + GuestsOf(requests))
  {
    RequestAppend(own, requests, m);
    var hosts := own + HostsOf(requests);
    AntichainAppend(hosts, m.host);
    DistinctAppend(RESERVED + GuestsOf(requests), m.guest);
    assert Apart(m.host, hosts) <==> forall i :: 0 <= i < |hosts| ==> Disjoint(hosts[i], m.host);
  }

  lemma AdmittedPrefix(own: seq<Path>, requests: seq<Mapping>, more: seq<Mapping>)
    requires Admitted(own, requests + more)
    ensures Admitted(own, requests)
  {
    var hosts, all := own + HostsOf(requests), own + HostsOf(requests + more);
    forall i, j | 0 <= i < |hosts| && 0 <= j < |hosts| && i != j ensures Disjoint(hosts[i], hosts[j]) {
      assert hosts[i] == all[i] && hosts[j] == all[j];
      assert Disjoint(all[i], all[j]);
    }
    var guests, allGuests := RESERVED + GuestsOf(requests), RESERVED + GuestsOf(requests + more);
    forall i, j | 0 <= i < j < |guests| ensures FoldAll(guests[i]) != FoldAll(guests[j]) {
      assert guests[i] == allGuests[i] && guests[j] == allGuests[j];
    }
  }

  /** The checks of one mount or workspace against everything before it. */
  method Admit(hosts: seq<Path>, seen: set<seq<string>>, m: Mapping, ghost own: seq<Path>, ghost requests: seq<Mapping>)
    returns (ok: bool)
    requires Admitted(own, requests) && hosts == own + HostsOf(requests)
    requires seen == FoldedSet(RESERVED + GuestsOf(requests))
    ensures ok <==> Admitted(own, requests + [m])
    ensures seen + {FoldAll(m.guest)} == FoldedSet(RESERVED + GuestsOf(requests + [m]))
    ensures hosts + [m.host] == own + HostsOf(requests + [m])
  {
    AdmittedAppend(own, requests, m);
    RequestAppend(own, requests, m);
    DistinctAppend(RESERVED + GuestsOf(requests), m.guest);
    var overlaps := OverlapsAny(m.host, hosts);
    ok := !overlaps && FoldAll(m.guest) !in seen;
  }

  datatype Rendered = Rendered(mappings: seq<Mapping>, memory: int, audioOutput: bool, audioInput: bool)

  lemma ReservedDistinct()
    ensures Distinct(RESERVED)
    ensures FoldedSet(RESERVED) ==
      {FoldAll(INPUT), FoldAll(STATUS), FoldAll(CACHE), FoldAll(MODELS), FoldAll(WORKTREES)}
  {
    assert |FoldAll(CACHE)| == 3;
    ReservedNames();
    forall k | 0 <= k < 5 ensures RESERVED[k] == [INPUT, STATUS, CACHE, MODELS, WORKTREES][k] {}
    assert FoldAll(RESERVED[0]) == FoldAll(INPUT) && FoldAll(RESERVED[1]) == FoldAll(STATUS);
    assert FoldAll(RESERVED[2]) == FoldAll(CACHE) && FoldAll(RESERVED[3]) == FoldAll(MODELS);
    assert FoldAll(RESERVED[4]) == FoldAll(WORKTREES);
  }

  lemma ReservedNames()
    ensures FoldAll(INPUT)[1] != FoldAll(STATUS)[1] && FoldAll(INPUT)[1] != FoldAll(MODELS)[1]
    ensures FoldAll(INPUT)[1] != FoldAll(WORKTREES)[1] && FoldAll(STATUS)[1] != FoldAll(MODELS)[1]
    ensures FoldAll(STATUS)[1] != FoldAll(WORKTREES)[1] && FoldAll(MODELS)[1] != FoldAll(WORKTREES)[1]
  {
    assert |INPUT[1]| == 16 && |STATUS[1]| == 13 && |MODELS[1]| == 6 && |WORKTREES[1]| == 9;
  }

  lemma PrefixRefused(own: seq<Path>, requests: seq<Mapping>, more: seq<Mapping>)
    requires !Admitted(own, requests)
    ensures !Admitted(own, requests + more)
  {
    if Admitted(own, requests + more) {
      AdmittedPrefix(own, requests, more);
    }
  }

  lemma MountsGrow(mounts: seq<Mount>, i: nat, own: seq<Path>)
    requires i < |mounts|
    ensures MountMappings(mounts[..i + 1]) == MountMappings(mounts[..i]) + [MountMapping(mounts[i])]
    ensures !Admitted(own, MountMappings(mounts[..i + 1])) ==> !Admitted(own, MountMappings(mounts))
  {
    var before := MountMappings(mounts[..i + 1]);
    assert MountMappings(mounts) == before + MountMappings(mounts[i + 1..]);
    if !Admitted(own, before) {
      PrefixRefused(own, before, MountMappings(mounts[i + 1..]));
    }
  }

  lemma WorkspacesGrow(workspaces: seq<Workspace>, i: nat, mounts: seq<Mapping>, own: seq<Path>)
    requires i < |workspaces|
    ensures mounts + WorkspaceMappings(workspaces[..i + 1])
         == mounts + WorkspaceMappings(workspaces[..i]) + [WorkspaceMapping(workspaces[i])]
    ensures !Admitted(own, mounts + WorkspaceMappings(workspaces[..i + 1])) ==>
      !Admitted(own, mounts + WorkspaceMappings(workspaces))
  {
    var before := mounts + WorkspaceMappings(workspaces[..i + 1]);
    assert mounts + WorkspaceMappings(workspaces) == before + WorkspaceMappings(workspaces[i + 1..]);
    if !Admitted(own, before) {
      PrefixRefused(own, before, WorkspaceMappings(workspaces[i + 1..]));
    }
  }

  method AddMounts(mounts: seq<Mount>, own: seq<Path>, reserved: set<seq<string>>)
    returns (ok: bool, hosts: seq<Path>, seen: set<seq<string>>, mappings: seq<Mapping>)
    requires Admitted(own, []) && reserved == FoldedSet(RESERVED)
    ensures ok <==> (forall k :: 0 <= k < |mounts| ==> MountOk(mounts[k])) && Admitted(own, MountMappings(mounts))
    ensures ok ==> mappings == MountMappings(mounts) && hosts == own + HostsOf(mappings)
    ensures ok ==> seen == FoldedSet(RESERVED + GuestsOf(mappings))
  {
    ok, hosts, seen, mappings := true, own, reserved, [];
    assert RESERVED + GuestsOf([]) == RESERVED;
    for i := 0 to |mounts|
      invariant ok && mappings == MountMappings(mounts[..i]) && Admitted(own, mappings)
      invariant forall k :: 0 <= k < i ==> MountOk(mounts[k])
      invariant hosts == own + HostsOf(mappings) && seen == FoldedSet(RESERVED + GuestsOf(mappings))
    {
      var mount := mounts[i];
      if !MountOk(mount) {
        return false, hosts, seen, mappings;
      }
      var m := MountMapping(mount);
      MountsGrow(mounts, i, own);
      ok := Admit(hosts, seen, m, own, mappings);
      if !ok {
        return false, hosts, seen, mappings;
      }
      hosts, seen, mappings := hosts + [m.host], seen + {FoldAll(m.guest)}, mappings + [m];
    }
    assert mounts[..|mounts|] == mounts;
  }

  method AddWorkspaces(workspaces: seq<Workspace>, own: seq<Path>, hosts: seq<Path>, guests: set<seq<string>>,
                       mounts: seq<Mapping>)
    returns (ok: bool, mappings: seq<Mapping>)
    requires Admitted(own, mounts) && hosts == own + HostsOf(mounts) && guests == FoldedSet(RESERVED + GuestsOf(mounts))
    ensures ok <==>
      && (forall k :: 0 <= k < |workspaces| ==> WorkspaceOk(workspaces[k]))
      && Admitted(own, mounts + WorkspaceMappings(workspaces))
    ensures ok ==> mappings == mounts + WorkspaceMappings(workspaces)
  {
    var hostMappings, seen := hosts, guests;
    ok, mappings := true, mounts;
    assert mounts + WorkspaceMappings(workspaces[..0]) == mounts;
    for i := 0 to |workspaces|
      invariant ok && mappings == mounts + WorkspaceMappings(workspaces[..i]) && Admitted(own, mappings)
      invariant forall k :: 0 <= k < i ==> WorkspaceOk(workspaces[k])
      invariant hostMappings == own + HostsOf(mappings) && seen == FoldedSet(RESERVED + GuestsOf(mappings))
    {
      var workspace := workspaces[i];
      if !WorkspaceOk(workspace) {
        return false, mappings;
      }
      var m := WorkspaceMapping(workspace);
      WorkspacesGrow(workspaces, i, mounts, own);
      ok := Admit(hostMappings, seen, m, own, mappings);
      if !ok {
        return false, mappings;
      }
      hostMappings, seen, mappings := hostMappings + [m.host], seen + {FoldAll(m.guest)}, mappings + [m];
    }
    assert workspaces[..|workspaces|] == workspaces;
  }

  lemma NothingRequested(own: seq<Path>)
    ensures Admitted(own, []) <==> Antichain(own)
    ensures forall requests :: Admitted(own, requests) ==> Antichain(own)
  {
    ReservedDistinct();
    assert own + HostsOf([]) == own && RESERVED + GuestsOf([]) == RESERVED;
    forall requests | Admitted(own, requests) ensures Antichain(own) {
      assert [] + requests == requests;
      AdmittedPrefix(own, [], requests);
    }
  }

  method RenderRequested(plan: Plan, own: seq<Path>) returns (ok: bool, requested: seq<Mapping>)
    requires Admitted(own, [])
    ensures ok <==>
      && (forall k :: 0 <= k < |plan.mounts| ==> MountOk(plan.mounts[k]))
      && (forall k :: 0 <= k < |plan.workspaces| ==> WorkspaceOk(plan.workspaces[k]))
      && Admitted(own, Requested(plan))
    ensures ok ==> requested == Requested(plan)
  {
    ReservedDistinct();
    var reserved := {FoldAll(INPUT), FoldAll(STATUS), FoldAll(CACHE), FoldAll(MODELS), FoldAll(WORKTREES)};
    var hosts, seen;
    ok, hosts, seen, requested := AddMounts(plan.mounts, own, reserved);
    if ok {
      ok, requested := AddWorkspaces(plan.workspaces, own, hosts, seen, requested);
    } else if !Admitted(own, MountMappings(plan.mounts)) {
      PrefixRefused(own, MountMappings(plan.mounts), WorkspaceMappings(plan.workspaces));
    }
  }

  /** renderConfigWithMappedDirectories, down to the encoding. */
  method Render(plan: Plan) returns (rendered: Option<Rendered>)
    ensures rendered.Some? <==> Accepted(plan)
    ensures rendered.Some? ==>
      rendered.value == Rendered(Listed(plan), plan.memory, plan.audioOutput, plan.audioInput)
  {
    if |plan.mounts| > MAXIMUM_MOUNTS || !Absolute(plan) {
      return None;
    }
    var own, mappings := RenderOwn(plan);
    AcceptedAdmits(plan);
    var overlaps := FirstOverlap(own);
    if overlaps || plan.memory < MINIMUM_MEMORY {
      return None;
    }
    var added, requested := RenderRequested(plan, own);
    if !added {
      return None;
    }
    mappings := mappings + requested;
    mappings := mappings + [Mapping(plan.status.path, STATUS, false)];
    mappings := mappings + [Mapping(plan.cache.path, CACHE, false)];
    assert mappings == Listed(plan) by {
      Concatenated(plan, OwnMappings(plan)[..1], OptionalMappings(plan), Requested(plan), OwnMappings(plan)[1..]);
    }
    return Some(Rendered(mappings, plan.memory, plan.audioOutput, plan.audioInput));
  }

  lemma Concatenated(plan: Plan, first: seq<Mapping>, second: seq<Mapping>, third: seq<Mapping>, last: seq<Mapping>)
    requires first == OwnMappings(plan)[..1] && last == OwnMappings(plan)[1..]
    ensures first + second + third + [Mapping(plan.status.path, STATUS, false)] +
      [Mapping(plan.cache.path, CACHE, false)]
         == first + (second + third) + last
  {
  }

  lemma AcceptedAdmits(plan: Plan)
    ensures Accepted(plan) <==>
      && |plan.mounts| <= MAXIMUM_MOUNTS && plan.memory >= MINIMUM_MEMORY && Absolute(plan)
      && (forall k :: 0 <= k < |plan.mounts| ==> MountOk(plan.mounts[k]))
      && (forall k :: 0 <= k < |plan.workspaces| ==> WorkspaceOk(plan.workspaces[k]))
      && Antichain(OwnHosts(plan)) && Admitted(OwnHosts(plan), Requested(plan))
    ensures Antichain(OwnHosts(plan)) ==> Admitted(OwnHosts(plan), [])
  {
    NothingRequested(OwnHosts(plan));
    assert Accepted(plan) ==> Admitted(OwnHosts(plan), Requested(plan));
  }

  /** The tool's own folders: the hosts in the order they are checked, the mappings in the order they are listed. */
  method RenderOwn(plan: Plan) returns (hosts: seq<Path>, mappings: seq<Mapping>)
    ensures hosts == OwnHosts(plan)
    ensures mappings == OwnMappings(plan)[..1] + OptionalMappings(plan)
  {
    hosts := [plan.input.path, plan.status.path, plan.cache.path];
    mappings := [Mapping(plan.input.path, INPUT, true)];
    if plan.worktrees.Some? {
      hosts := hosts + [plan.worktrees.value.path];
      mappings := mappings + [Mapping(plan.worktrees.value.path, WORKTREES, false)];
    }
    if plan.models.Some? {
      hosts := hosts + [plan.models.value.path];
      mappings := mappings + [Mapping(plan.models.value.path, MODELS, false)];
    }
  }

  // ---------------------------------------------------------------- translation

  /** What the guest's manifest demands of a workspace (provisioning.go), which the renderer does not ask for. */
  predicate OwnGuestFolder(workspace: Workspace) {
    ValidName(workspace.name) && FoldAll(workspace.guest.path) == FoldAll(GuestWorkspace(workspace.name))
  }

  predicate PlannedGuests(plan: Plan) {
    forall k :: 0 <= k < |plan.workspaces| ==> OwnGuestFolder(plan.workspaces[k])
  }

  /** A guest folder of the tool: one level below the volume, or two below a folder of folders. */
  predicate ToolFolder(guest: Path) {
    || FoldAll(guest) in [FoldAll(INPUT), FoldAll(STATUS), FoldAll(MODELS), FoldAll(WORKTREES), FoldAll(CACHE)]
    || (|guest| == 3 && Lower(guest[0]) == Lower("C:") && Lower(guest[1]) in [Lower("Mounts"), Lower("Workspaces")])
  }

  lemma FolderNames()
    ensures forall name :: name in [Lower("Mounts"), Lower("Workspaces"), FoldAll(CACHE)[1]] ==>
      name != FoldAll(INPUT)[1] && name != FoldAll(STATUS)[1] && name != FoldAll(MODELS)[1] &&
        name != FoldAll(WORKTREES)[1]
  {
    assert |Lower("Mounts")| == 6 && |Lower("Workspaces")| == 10 && |FoldAll(CACHE)[1]| == 12;
    assert |FoldAll(INPUT)[1]| == 16 && |FoldAll(STATUS)[1]| == 13 && |FoldAll(MODELS)[1]| == 6 &&
      |FoldAll(WORKTREES)[1]| == 9;
    assert Lower("Mounts")[2] == 'u' && FoldAll(MODELS)[1][2] == 'd';
  }

  lemma ToolFolderShape(guest: Path)
    requires ToolFolder(guest)
    ensures |guest| == 2 || |guest| == 3
    ensures |guest| == 2 ==>
      FoldAll(guest)[1] in [FoldAll(INPUT)[1], FoldAll(STATUS)[1], FoldAll(MODELS)[1], FoldAll(WORKTREES)[1]]
    ensures |guest| == 3 ==> FoldAll(guest)[1] in [Lower("Mounts"), Lower("Workspaces"), FoldAll(CACHE)[1]]
  {
    assert |FoldAll(INPUT)| == 2 == |FoldAll(STATUS)| && |FoldAll(CACHE)| == 3;
    assert |FoldAll(MODELS)| == 2 == |FoldAll(WORKTREES)|;
    assert |FoldAll(guest)| == |guest|;
  }

  lemma NoPrefixOfSameLength(a: seq<string>, b: seq<string>)
    requires |a| == |b| && a != b
    ensures !(a <= b) && !(b <= a)
  {
  }

  lemma NoPrefixWhenDiffering(a: seq<string>, b: seq<string>, k: nat)
    requires k < |a| && k < |b| && a[k] != b[k]
    ensures !(a <= b) && !(b <= a)
  {
  }

  /** Two of the tool's guest folders are the same or apart: none lies inside another. */
  lemma ToolFoldersApart(left: Path, right: Path)
    requires ToolFolder(left) && ToolFolder(right) && FoldAll(left) != FoldAll(right)
    ensures Disjoint(left, right)
  {
    ToolFolderShape(left);
    ToolFolderShape(right);
    FolderNames();
    var a, b := FoldAll(left), FoldAll(right);
    if |left| == |right| {
      NoPrefixOfSameLength(a, b);
    } else {
      NoPrefixWhenDiffering(a, b, 1);
    }
  }

  lemma NamedToolFolder(guest: Path, parent: string, name: string)
    requires FoldAll(guest) == FoldAll(["C:", parent, name]) && (parent == "Mounts" || parent == "Workspaces")
    ensures ToolFolder(guest)
  {
    assert FoldAll(["C:", parent, name])[0] == Lower("C:") && FoldAll(["C:", parent, name])[1] == Lower(parent);
    assert FoldAll(guest)[0] == Lower(guest[0]) && FoldAll(guest)[1] == Lower(guest[1]);
  }

  function Swapped(mappings: seq<Mapping>): (r: seq<Mapping>)
    ensures |r| == |mappings|
    ensures forall k :: 0 <= k < |r| ==> r[k] == Mapping(mappings[k].guest, mappings[k].host, mappings[k].readOnly)
  {
    seq(|mappings|,
      k requires 0 <= k < |mappings| => Mapping(mappings[k].guest, mappings[k].host, mappings[k].readOnly))
  }

  predicate Under(mapping: Mapping, path: Path) {
    FoldAll(mapping.host) <= FoldAll(path)
  }

  /** A host path as the guest sees it, by the first mapping it lies under; with the mappings swapped, a guest path
      as the host sees it. */
  function Translate(mappings: seq<Mapping>, path: Path): Option<Path> {
    if mappings == [] then None
    else if Under(mappings[0], path) then Some(mappings[0].guest + path[|mappings[0].host|..])
    else Translate(mappings[1..], path)
  }

  /** Mapped host folders apart from each other, and mapped guest folders too. */
  ghost predicate OneToOne(mappings: seq<Mapping>) {
    Antichain(HostsOf(mappings)) && Antichain(GuestsOf(mappings))
  }

  lemma PrefixesMeet(a: seq<string>, b: seq<string>, p: seq<string>)
    requires a <= p && b <= p
    ensures a <= b || b <= a
  {
    assert a == p[..|a|] && b == p[..|b|];
    assert |a| <= |b| ==> a == b[..|a|];
  }

  lemma BothUnderMeets(mappings: seq<Mapping>, path: Path, i: nat, j: nat)
    requires i < |mappings| && j < |mappings| && Under(mappings[i], path) && Under(mappings[j], path)
    ensures !Disjoint(HostsOf(mappings)[i], HostsOf(mappings)[j])
  {
    PrefixesMeet(FoldAll(mappings[i].host), FoldAll(mappings[j].host), FoldAll(path));
  }

  /** A path lies under at most one mapping. */
  lemma AtMostOneMapping(mappings: seq<Mapping>, path: Path, i: nat, j: nat)
    requires Antichain(HostsOf(mappings)) && i < |mappings| && j < |mappings|
    requires Under(mappings[i], path) && Under(mappings[j], path)
    ensures i == j
  {
    BothUnderMeets(mappings, path, i, j);
  }

  lemma {:induction false} TranslateFinds(mappings: seq<Mapping>, path: Path) returns (i: nat)
    ensures Translate(mappings, path).Some? ==>
      i < |mappings| && Under(mappings[i], path) &&
        Translate(mappings, path) == Some(mappings[i].guest + path[|mappings[i].host|..])
    ensures Translate(mappings, path).None? ==> forall k :: 0 <= k < |mappings| ==> !Under(mappings[k], path)
  {
    if mappings == [] || Under(mappings[0], path) {
      i := 0;
    } else {
      i := TranslateFinds(mappings[1..], path);
      assert Translate(mappings[1..], path).Some? ==> mappings[1..][i] == mappings[i + 1];
      assert forall k :: 0 < k < |mappings| ==> mappings[k] == mappings[1..][k - 1];
      i := i + 1;
    }
  }

  /** A path translates exactly when some mapped folder contains it. */
  lemma TranslatesIff(mappings: seq<Mapping>, path: Path)
    ensures Translate(mappings, path).Some? <==> exists m :: m in mappings && HostPathContains(m.host, path)
  {
    var i := TranslateFinds(mappings, path);
    if Translate(mappings, path).Some? {
      ContainsIsPrefix(mappings[i].host, path);
      assert mappings[i] in mappings;
    } else {
      forall m | m in mappings ensures !HostPathContains(m.host, path) {
        ContainsIsPrefix(m.host, path);
      }
    }
  }

  lemma TranslatedIsUnder(mappings: seq<Mapping>, path: Path, i: nat, translated: Path)
    requires i < |mappings| && Under(mappings[i], path) && translated == mappings[i].guest + path[|mappings[i].host|..]
    ensures Under(Swapped(mappings)[i], translated)
    ensures FoldAll(mappings[i].host + translated[|mappings[i].guest|..]) == FoldAll(path)
  {
    var m := mappings[i];
    assert FoldAll(translated)[..|m.guest|] == FoldAll(m.guest);
    assert translated[|m.guest|..] == path[|m.host|..];
    assert FoldAll(path)[..|m.host|] == FoldAll(m.host);
    assert FoldAll(m.host + path[|m.host|..]) == FoldAll(m.host) + FoldAll(path)[|m.host|..];
  }

  /** Translating there and back gives the same path, up to case. */
  lemma TranslationsUndoEachOther(mappings: seq<Mapping>, path: Path)
    requires OneToOne(mappings) && Translate(mappings, path).Some?
    ensures var back := Translate(Swapped(mappings), Translate(mappings, path).value);
      back.Some? && FoldAll(back.value) == FoldAll(path)
  {
    var i := TranslateFinds(mappings, path);
    var there := Translate(mappings, path).value;
    TranslatedIsUnder(mappings, path, i, there);
    var swapped := Swapped(mappings);
    assert HostsOf(swapped) == GuestsOf(mappings);
    var j := TranslateFinds(swapped, there);
    AtMostOneMapping(swapped, there, i, j);
  }

  // ---------------------------------------------------------------- what rendering guarantees

  /** The place of the k-th listed mapping in the order of the checks. */
  function Reordered(k: nat, n: nat): nat
    requires k < n && n >= 3
  {
    if k == 0 then 0 else if k < n - 2 then k + 2 else k - n + 3
  }

  /** The tool's own folders and the mounts, whose guest folders the renderer fixes. */
  function ToolMappings(plan: Plan): seq<Mapping> {
    OwnMappings(plan) + OptionalMappings(plan) + MountMappings(plan.mounts)
  }

  /** The mappings in the order of the checks. */
  function Checked(plan: Plan): seq<Mapping> {
    ToolMappings(plan) + WorkspaceMappings(plan.workspaces)
  }

  lemma ListedReordered(plan: Plan)
    ensures |Listed(plan)| == |Checked(plan)| >= 3
    ensures forall k :: 0 <= k < |Listed(plan)| ==> Listed(plan)[k] == Checked(plan)[Reordered(k, |Checked(plan)|)]
  {
  }

  lemma ReorderedOnto(m: nat, n: nat) returns (k: nat)
    requires m < n && n >= 3
    ensures k < n && Reordered(k, n) == m
  {
    k := if m == 0 then 0 else if m <= 2 then m + n - 3 else m - 2;
  }

  lemma AntichainReordered(a: seq<seq<string>>, b: seq<seq<string>>)
    requires |a| == |b| >= 3 && forall k :: 0 <= k < |a| ==> a[k] == b[Reordered(k, |b|)]
    ensures Antichain(a) <==> Antichain(b)
  {
    var n := |a|;
    if Antichain(a) {
      forall i, j | 0 <= i < n && 0 <= j < n && i != j ensures Disjoint(b[i], b[j]) {
        var k := ReorderedOnto(i, n);
        var l := ReorderedOnto(j, n);
        assert Disjoint(a[k], a[l]);
      }
    }
    if Antichain(b) {
      forall i, j | 0 <= i < n && 0 <= j < n && i != j ensures Disjoint(a[i], a[j]) {
        assert Disjoint(b[Reordered(i, n)], b[Reordered(j, n)]);
      }
    }
  }

  lemma HostsChecked(plan: Plan)
    ensures HostsOf(Checked(plan)) == OwnHosts(plan) + HostsOf(Requested(plan))
  {
  }

  lemma ListedHostsApart(plan: Plan)
    requires Accepted(plan)
    ensures Antichain(HostsOf(Listed(plan)))
  {
    ListedReordered(plan);
    HostsChecked(plan);
    AntichainReordered(HostsOf(Listed(plan)), HostsOf(Checked(plan)));
  }

  /** The place of the k-th listed mapping's guest among the reserved and requested ones. */
  function GuestPlace(plan: Plan, k: nat): nat
    requires k < |Listed(plan)|
  {
    var n, optional := |Listed(plan)|, |OptionalMappings(plan)|;
    if k == 0 then 0
    else if k <= optional then (if Listed(plan)[k].guest == WORKTREES then 4 else 3)
    else if k < n - 2 then 5 + (k - 1 - optional)
    else if k == n - 2 then 1 else 2
  }

  lemma ListedGuests(plan: Plan, k: nat)
    requires k < |Listed(plan)|
    ensures var all := RESERVED + GuestsOf(Requested(plan));
      GuestPlace(plan, k) < |all| && GuestsOf(Listed(plan))[k] == all[GuestPlace(plan, k)]
  {
    var optional := OptionalMappings(plan);
    if 1 <= k <= |optional| {
      assert Listed(plan)[k] == optional[k - 1];
    }
  }

  lemma OptionalGuestsDiffer(plan: Plan)
    requires |OptionalMappings(plan)| == 2
    ensures OptionalMappings(plan)[0].guest == WORKTREES && OptionalMappings(plan)[1].guest == MODELS != WORKTREES
  {
    ReservedNames();
  }

  lemma GuestPlacesDiffer(plan: Plan, i: nat, j: nat)
    requires i < j < |Listed(plan)|
    ensures GuestPlace(plan, i) != GuestPlace(plan, j)
  {
    var optional := OptionalMappings(plan);
    if 1 <= i && j <= |optional| {
      OptionalGuestsDiffer(plan);
      assert Listed(plan)[i] == optional[i - 1] && Listed(plan)[j] == optional[j - 1];
    }
  }

  lemma ListedGuestsDistinct(plan: Plan)
    requires Accepted(plan)
    ensures Distinct(GuestsOf(Listed(plan)))
  {
    var guests := GuestsOf(Listed(plan));
    var all := RESERVED + GuestsOf(Requested(plan));
    forall i, j | 0 <= i < j < |guests| ensures FoldAll(guests[i]) != FoldAll(guests[j]) {
      ListedGuests(plan, i);
      ListedGuests(plan, j);
      GuestPlacesDiffer(plan, i, j);
      var a, b := GuestPlace(plan, i), GuestPlace(plan, j);
      assert a < b ==> FoldAll(all[a]) != FoldAll(all[b]);
      assert b < a ==> FoldAll(all[b]) != FoldAll(all[a]);
    }
  }

  lemma AntichainSplit(a: seq<seq<string>>, b: seq<seq<string>>)
    ensures Antichain(a + b) <==> Antichain(a) && Antichain(b) && forall k :: 0 <= k < |b| ==> Apart(b[k], a)
  {
    var all := a + b;
    if Antichain(all) {
      forall i, j | 0 <= i < |a| && 0 <= j < |a| && i != j ensures Disjoint(a[i], a[j]) {
        assert Disjoint(all[i], all[j]);
      }
      forall i, j | 0 <= i < |b| && 0 <= j < |b| && i != j ensures Disjoint(b[i], b[j]) {
        assert Disjoint(all[|a| + i], all[|a| + j]);
      }
      forall k, j | 0 <= k < |b| && 0 <= j < |a| ensures Disjoint(b[k], a[j]) {
        assert Disjoint(all[|a| + k], all[j]);
      }
    }
  }

  lemma ToolMappingFolders(plan: Plan, k: nat)
    requires Accepted(plan) && k < |ToolMappings(plan)|
    ensures ToolFolder(ToolMappings(plan)[k].guest)
  {
    var own := |OwnMappings(plan)| + |OptionalMappings(plan)|;
    if k >= own {
      var mount := plan.mounts[k - own];
      assert MountOk(mount) && ToolMappings(plan)[k] == MountMapping(mount);
      NamedToolFolder(mount.guest.path, "Mounts", mount.name);
    }
  }

  lemma CheckedGuestsDistinct(plan: Plan, i: nat, j: nat)
    requires Accepted(plan) && i < |Checked(plan)| && j < |Checked(plan)| && i != j
    ensures FoldAll(Checked(plan)[i].guest) != FoldAll(Checked(plan)[j].guest)
  {
    ListedReordered(plan);
    ListedGuestsDistinct(plan);
    var k := ReorderedOnto(i, |Checked(plan)|);
    var l := ReorderedOnto(j, |Checked(plan)|);
    assert FoldAll(GuestsOf(Listed(plan))[k]) != FoldAll(GuestsOf(Listed(plan))[l]);
  }

  lemma ToolGuestsApart(plan: Plan)
    requires Accepted(plan)
    ensures Antichain(GuestsOf(ToolMappings(plan)))
  {
    var guests := GuestsOf(ToolMappings(plan));
    forall i, j | 0 <= i < j < |guests| ensures Disjoint(guests[i], guests[j]) {
      ToolMappingFolders(plan, i);
      ToolMappingFolders(plan, j);
      assert guests[i] == Checked(plan)[i].guest && guests[j] == Checked(plan)[j].guest;
      CheckedGuestsDistinct(plan, i, j);
      ToolFoldersApart(guests[i], guests[j]);
    }
    AntichainFromPairs(guests);
  }

  /** The workspaces' guest folders lie apart from each other and from all the others. */
  ghost predicate WorkspaceGuestsApart(plan: Plan) {
    var guests := GuestsOf(WorkspaceMappings(plan.workspaces));
    Antichain(guests) && forall k :: 0 <= k < |guests| ==> Apart(guests[k], GuestsOf(ToolMappings(plan)))
  }

  /** Of what renders, the host folders are always apart; the guest folders are, and paths translate one to one,
      exactly when the workspaces' guest folders are apart from each other and from the tool's, which rendering does
      not check. */
  lemma RenderedOneToOneIff(plan: Plan)
    requires Accepted(plan)
    ensures Antichain(HostsOf(Listed(plan)))
    ensures OneToOne(Listed(plan)) <==> WorkspaceGuestsApart(plan)
  {
    ListedHostsApart(plan);
    ListedReordered(plan);
    ToolGuestsApart(plan);
    var tool, workspaces := GuestsOf(ToolMappings(plan)), GuestsOf(WorkspaceMappings(plan.workspaces));
    assert GuestsOf(Checked(plan)) == tool + workspaces;
    AntichainReordered(GuestsOf(Listed(plan)), GuestsOf(Checked(plan)));
    AntichainSplit(tool, workspaces);
  }

  lemma CheckedToolFolders(plan: Plan, k: nat)
    requires Accepted(plan) && PlannedGuests(plan) && k < |Checked(plan)|
    ensures ToolFolder(Checked(plan)[k].guest)
  {
    var n := |ToolMappings(plan)|;
    if k < n {
      ToolMappingFolders(plan, k);
    } else {
      var workspace := plan.workspaces[k - n];
      assert OwnGuestFolder(workspace) && Checked(plan)[k] == WorkspaceMapping(workspace);
      NamedToolFolder(workspace.guest.path, "Workspaces", workspace.name);
    }
  }

  /** With the guest folders that the manifest demands, whatever renders translates one to one. */
  lemma RenderedOneToOne(plan: Plan)
    requires Accepted(plan) && PlannedGuests(plan)
    ensures OneToOne(Listed(plan))
  {
    ListedHostsApart(plan);
    ListedReordered(plan);
    var guests := GuestsOf(Checked(plan));
    forall i, j | 0 <= i < j < |guests| ensures Disjoint(guests[i], guests[j]) {
      CheckedToolFolders(plan, i);
      CheckedToolFolders(plan, j);
      CheckedGuestsDistinct(plan, i, j);
      ToolFoldersApart(guests[i], guests[j]);
    }
    AntichainFromPairs(guests);
    AntichainReordered(GuestsOf(Listed(plan)), guests);
  }

  // ---------------------------------------------------------------- plans that render and do not translate one to one

  const HOSTS: seq<Path> := [["C:", "i"], ["C:", "s"], ["C:", "c"], ["D:", "a"], ["D:", "b"]]

  /** Two workspaces with these guest folders, and host folders that are apart. */
  function TwoWorkspaces(first: Path, second: Path): Plan {
    Plan(Planned(true, HOSTS[0]), Planned(true, HOSTS[1]), Planned(true, HOSTS[2]), None, None, [],
         [Workspace("a", Planned(true, HOSTS[3]), Planned(true, first)),
           Workspace("b", Planned(true, HOSTS[4]), Planned(true, second))],
         MINIMUM_MEMORY, false, false)
  }

  lemma HostsApart()
    ensures Antichain(HOSTS)
  {
    assert Lower("i") == "i" && Lower("s") == "s" && Lower("c") == "c" && Lower("a") == "a" && Lower("b") == "b";
    forall i, j | 0 <= i < j < 5 ensures Disjoint(HOSTS[i], HOSTS[j]) {
      assert FoldAll(HOSTS[i])[1] == Lower(HOSTS[i][1]) && FoldAll(HOSTS[j])[1] == Lower(HOSTS[j][1]);
      NoPrefixOfSameLength(FoldAll(HOSTS[i]), FoldAll(HOSTS[j]));
    }
    AntichainFromPairs(HOSTS);
  }

  lemma TwoWorkspacesParts(first: Path, second: Path)
    ensures var plan := TwoWorkspaces(first, second);
      OwnHosts(plan) + HostsOf(Requested(plan)) == HOSTS &&
        RESERVED + GuestsOf(Requested(plan)) == RESERVED + [first] + [second]
  {
    var plan := TwoWorkspaces(first, second);
    var workspaces := WorkspaceMappings(plan.workspaces);
    assert Requested(plan) == workspaces && OptionalMappings(plan) == [];
    assert OwnMappings(plan) + OptionalMappings(plan) == OwnMappings(plan);
  }

  lemma TwoDistinct(first: Path, second: Path)
    requires FoldAll(first) !in FoldedSet(RESERVED) && FoldAll(second) !in FoldedSet(RESERVED) + {FoldAll(first)}
    ensures Distinct(RESERVED + [first] + [second])
  {
    ReservedDistinct();
    DistinctAppend(RESERVED, first);
    DistinctAppend(RESERVED + [first], second);
  }

  lemma TwoWorkspacesRender(first: Path, second: Path)
    requires FoldAll(first) !in FoldedSet(RESERVED) && FoldAll(second) !in FoldedSet(RESERVED) + {FoldAll(first)}
    ensures Accepted(TwoWorkspaces(first, second))
  {
    HostsApart();
    TwoDistinct(first, second);
    TwoWorkspacesParts(first, second);
  }

  lemma Unreserved(path: Path)
    requires |path| == 4 || (|path| == 3 && Lower(path[1]) != FoldAll(CACHE)[1])
    ensures FoldAll(path) !in FoldedSet(RESERVED)
  {
    forall k | 0 <= k < |RESERVED| ensures FoldAll(path) != FoldAll(RESERVED[k]) {
      ReservedShape(k);
      assert FoldAll(path)[1] == Lower(path[1]);
    }
  }

  lemma ReservedShape(k: nat)
    requires k < |RESERVED|
    ensures |RESERVED[k]| == 2 || RESERVED[k] == CACHE
  {
  }

  const OUTER: Path := ["C:", "Workspaces", "a"]
  const INNER: Path := ["C:", "Workspaces", "a", "b"]
  const IN_STATUS: Path := ["C:", "SandboxStatus", "b"]

  /** A plan that renders with one workspace's guest folder inside another's, and one that renders with a workspace's
      guest folder inside the tool's status folder: neither translates one to one. */
  lemma RenderedNotOneToOne()
    ensures var plan := TwoWorkspaces(OUTER, INNER); Accepted(plan) && !OneToOne(Listed(plan))
    ensures var plan := TwoWorkspaces(OUTER, IN_STATUS); Accepted(plan) && !OneToOne(Listed(plan))
  {
    assert |Lower("Workspaces")| == 10 && |FoldAll(CACHE)[1]| == 12 && |Lower("SandboxStatus")| == 13;
    Unreserved(OUTER);
    Unreserved(INNER);
    Unreserved(IN_STATUS);
    assert |FoldAll(OUTER)| != |FoldAll(INNER)|;
    assert FoldAll(OUTER)[1] == Lower("Workspaces") && FoldAll(IN_STATUS)[1] == Lower("SandboxStatus");
    TwoWorkspacesRender(OUTER, INNER);
    TwoWorkspacesRender(OUTER, IN_STATUS);
    GuestsMeet(TwoWorkspaces(OUTER, INNER), 0, 1, OUTER, INNER);
    InsideStatus(TwoWorkspaces(OUTER, IN_STATUS), IN_STATUS);
  }

  lemma GuestsMeet(plan: Plan, i: nat, j: nat, outer: Path, inner: Path)
    requires Accepted(plan) && i < |plan.workspaces| && j < |plan.workspaces| && i != j
    requires plan.workspaces[i].guest.path == outer && plan.workspaces[j].guest.path == inner && outer <= inner
    ensures !OneToOne(Listed(plan))
  {
    RenderedOneToOneIff(plan);
    var guests := GuestsOf(WorkspaceMappings(plan.workspaces));
    assert guests[i] == outer && guests[j] == inner;
    assert FoldAll(outer) <= FoldAll(inner);
    assert !Disjoint(guests[i], guests[j]);
  }

  lemma InsideStatus(plan: Plan, inner: Path)
    requires Accepted(plan) && |plan.workspaces| == 2 && plan.workspaces[1].guest.path == inner && STATUS <= inner
    ensures !OneToOne(Listed(plan))
  {
    RenderedOneToOneIff(plan);
    var guests, tool := GuestsOf(WorkspaceMappings(plan.workspaces)), GuestsOf(ToolMappings(plan));
    assert guests[1] == inner && tool[1] == STATUS;
    assert FoldAll(STATUS) <= FoldAll(inner);
    assert !Disjoint(guests[1], tool[1]);
  }
}
