/** The checks of validatePhysicalMappings (session.go, provisioning.go): the folders behind the mapped paths are
    apart, and the guest reaches no private folder through any of them. */
module PhysicalFolders {
  import opened Common
  import opened PathMapping

  /** The physical folder behind each path, when every one of them resolves. */
  ghost predicate Resolved(paths: seq<Path>, identity: Path -> Option<Path>, identities: seq<Path>) {
    |identities| == |paths| && forall k :: 0 <= k < |paths| ==> identity(paths[k]) == Some(identities[k])
  }

  ghost predicate AllResolve(paths: seq<Path>, identity: Path -> Option<Path>) {
    forall k :: 0 <= k < |paths| ==> identity(paths[k]).Some?
  }

  method Resolve(paths: seq<Path>, identity: Path -> Option<Path>) returns (ok: bool, identities: seq<Path>)
    ensures ok <==> AllResolve(paths, identity)
    ensures ok ==> Resolved(paths, identity, identities)
  {
    identities := [];
    for i := 0 to |paths|
      invariant Resolved(paths[..i], identity, identities)
    {
      var resolved := identity(paths[i]);
      if resolved.None? {
        return false, identities;
      }
      identities := identities + [resolved.value];
    }
    assert paths[..|paths|] == paths;
    ok := true;
  }

  // ---------------------------------------------------------------- folders that must not be shared

  datatype Presence = Absent | Present | Inaccessible

  /** The user profile and its AppData folders, the folders with credentials, and what the file system says of them. */
  datatype Guarded = Guarded(roots: seq<Path>, sensitive: seq<Path>, stat: Path -> Presence,
    identity: Path -> Option<Path>)

  /** A shared folder may lie in the user profile, but not contain it. */
  predicate ClearOfRoot(folder: Path, root: Path, guarded: Guarded) {
    guarded.identity(root).Some? && !HostPathContains(folder, guarded.identity(root).value)
  }

  /** filepath.Dir: the root is its own parent. */
  function Parent(path: Path): Path {
    if |path| == 1 then path else path[..|path| - 1]
  }

  /** physicalMappingContainsLexicalPath finds nothing: no parent on the way up resolves into the folder. */
  predicate ClearOfParents(folder: Path, path: Path, guarded: Guarded)
    decreases |path|
  {
    var parent := Parent(path);
    && guarded.identity(parent).Some? && !HostPathContains(folder, guarded.identity(parent).value)
    && (|path| > 2 ==> ClearOfParents(folder, parent, guarded))
  }

  predicate ClearOfSensitive(folder: Path, path: Path, guarded: Guarded) {
    match guarded.stat(path)
    case Absent => true
    case Inaccessible => false
    case Present =>
      && ClearOfParents(folder, path, guarded)
      && guarded.identity(path).Some? && !HostPathsOverlap(folder, guarded.identity(path).value)
  }

  /** Only the first of several spellings of a path is looked at. */
  predicate FirstSpelling(paths: seq<Path>, k: nat)
    requires k < |paths|
  {
    forall j :: 0 <= j < k ==> FoldAll(paths[j]) != FoldAll(paths[k])
  }

  predicate Shareable(folder: Path, guarded: Guarded) {
    && (forall k :: 0 <= k < |guarded.roots| ==> ClearOfRoot(folder, guarded.roots[k], guarded))
    && (forall k :: 0 <= k < |guarded.sensitive| && FirstSpelling(guarded.sensitive, k) ==>
          ClearOfSensitive(folder, guarded.sensitive[k], guarded))
  }

  method CheckParents(folder: Path, path: Path, guarded: Guarded) returns (ok: bool)
    ensures ok <==> ClearOfParents(folder, path, guarded)
  {
    var current := path;
    while true
      invariant ClearOfParents(folder, path, guarded) <==> ClearOfParents(folder, current, guarded)
      decreases |current|
    {
      var ancestor := Parent(current);
      var resolved := guarded.identity(ancestor);
      if resolved.None? || HostPathContains(folder, resolved.value) {
        return false;
      }
      if |current| <= 2 {
        return true;
      }
      current := ancestor;
    }
  }

  method CheckSensitive(folder: Path, path: Path, guarded: Guarded) returns (ok: bool)
    ensures ok <==> ClearOfSensitive(folder, path, guarded)
  {
    match guarded.stat(path) {
      case Absent =>
        return true;
      case Inaccessible =>
        return false;
      case Present =>
    }
    ok := CheckParents(folder, path, guarded);
    if ok {
      var resolved := guarded.identity(path);
      ok := resolved.Some? && !HostPathsOverlap(folder, resolved.value);
    }
  }

  /** The spellings of the first `k` paths. */
  ghost predicate SeenPaths(seen: set<seq<string>>, paths: seq<Path>, k: nat)
    requires k <= |paths|
  {
    forall key :: key in seen <==> exists j :: 0 <= j < k && FoldAll(paths[j]) == key
  }

  lemma FirstUnseen(seen: set<seq<string>>, paths: seq<Path>, k: nat)
    requires k < |paths| && SeenPaths(seen, paths, k)
    ensures FoldAll(paths[k]) !in seen <==> FirstSpelling(paths, k)
    ensures SeenPaths(seen + {FoldAll(paths[k])}, paths, k + 1)
  {
  }

  method CheckShareable(folder: Path, guarded: Guarded) returns (ok: bool)
    ensures ok <==> Shareable(folder, guarded)
  {
    for k := 0 to |guarded.roots|
      invariant forall j :: 0 <= j < k ==> ClearOfRoot(folder, guarded.roots[j], guarded)
    {
      if !ClearOfRoot(folder, guarded.roots[k], guarded) {
        return false;
      }
    }
    var seen: set<seq<string>> := {};
    var sensitive := guarded.sensitive;
    for k := 0 to |sensitive|
      invariant SeenPaths(seen, sensitive, k)
      invariant forall j :: 0 <= j < k && FirstSpelling(sensitive, j) ==>
        ClearOfSensitive(folder, sensitive[j], guarded)
    {
      FirstUnseen(seen, sensitive, k);
      var key := FoldAll(sensitive[k]);
      if key !in seen {
        var clear := CheckSensitive(folder, sensitive[k], guarded);
        if !clear {
          return false;
        }
      }
      seen := seen + {key};
    }
    ok := true;
  }

  // ---------------------------------------------------------------- the whole check

  /** The folders behind the mappings are apart; and each of them but the first two meets no private folder and may be
      shared. */
  ghost predicate PhysicallyApart(mapped: seq<Path>, private: seq<Path>, guarded: Guarded) {
    Antichain(mapped) && forall k :: 2 <= k < |mapped| ==> Apart(mapped[k], private) && Shareable(mapped[k], guarded)
  }

  /** validatePhysicalMappings. */
  method ValidatePhysical(input: Path, status: Path, others: seq<Path>, private: seq<Path>, guarded: Guarded)
    returns (ok: bool, ghost mapped: seq<Path>, ghost hidden: seq<Path>)
    ensures ok ==> Resolved([input, status] + others, guarded.identity, mapped)
    ensures ok ==> Resolved(private, guarded.identity, hidden)
    ensures ok ==> PhysicallyApart(mapped, hidden, guarded)
    ensures !ok ==> forall m, h ::
      Resolved([input, status] + others, guarded.identity, m) && Resolved(private, guarded.identity, h) ==>
        !PhysicallyApart(m, h, guarded)
  {
    var hosts := [input, status] + others;
    var resolved, identities := Resolve(hosts, guarded.identity);
    mapped, hidden := identities, [];
    if !resolved {
      return false, mapped, hidden;
    }
    OneResolution(hosts, guarded.identity, identities);
    var overlaps := FirstOverlap(identities);
    if overlaps {
      return false, mapped, hidden;
    }
    var protected;
    resolved, protected := Resolve(private, guarded.identity);
    hidden := protected;
    if !resolved {
      return false, mapped, hidden;
    }
    OneResolution(private, guarded.identity, protected);
    for k := 2 to |identities|
      invariant forall j :: 2 <= j < k ==> Apart(identities[j], protected) && Shareable(identities[j], guarded)
    {
      overlaps := OverlapsAny(identities[k], protected);
      if overlaps {
        return false, mapped, hidden;
      }
      var shareable := CheckShareable(identities[k], guarded);
      if !shareable {
        return false, mapped, hidden;
      }
    }
    ok := true;
  }

  lemma OneResolution(paths: seq<Path>, identity: Path -> Option<Path>, identities: seq<Path>)
    requires Resolved(paths, identity, identities)
    ensures forall other :: Resolved(paths, identity, other) ==> other == identities
  {
  }

  /** A physical path inside a private folder cannot be reached through any folder shared with the guest. */
  lemma PrivateStaysPrivate(mapped: seq<Path>, private: seq<Path>, guarded: Guarded, k: nat, j: nat, path: Path)
    requires PhysicallyApart(mapped, private, guarded) && 2 <= k < |mapped| && j < |private|
    requires FoldAll(private[j]) <= FoldAll(path)
    ensures !(FoldAll(mapped[k]) <= FoldAll(path))
  {
    assert Disjoint(mapped[k], private[j]);
    if FoldAll(mapped[k]) <= FoldAll(path) {
      PrefixesMeet(FoldAll(mapped[k]), FoldAll(private[j]), FoldAll(path));
    }
  }

  /** What a shared folder leaves unshared of the user's profile: each of its roots resolves, and no folder that it lies
      in is shared. */
  lemma ProfileStaysPrivate(folder: Path, guarded: Guarded, k: nat)
    requires Shareable(folder, guarded) && k < |guarded.roots|
    ensures guarded.identity(guarded.roots[k]).Some?
    ensures !(FoldAll(folder) <= FoldAll(guarded.identity(guarded.roots[k]).value))
  {
    assert ClearOfRoot(folder, guarded.roots[k], guarded);
    ContainsIsPrefix(folder, guarded.identity(guarded.roots[k]).value);
  }

  /** Nor can a path inside a folder with credentials that is there, and none of the folder's parents, as its path names
      them, lies in a shared folder either. */
  lemma SensitiveStaysPrivate(folder: Path, guarded: Guarded, k: nat, path: Path)
    requires Shareable(folder, guarded) && k < |guarded.sensitive| && FirstSpelling(guarded.sensitive, k)
    requires guarded.stat(guarded.sensitive[k]) == Present && guarded.identity(guarded.sensitive[k]).Some?
    requires FoldAll(guarded.identity(guarded.sensitive[k]).value) <= FoldAll(path)
    ensures !(FoldAll(folder) <= FoldAll(path))
    ensures forall n :: 1 <= n < |guarded.sensitive[k]| ==>
      var parent: Path := guarded.sensitive[k][..n];
      guarded.identity(parent).Some? && !(FoldAll(folder) <= FoldAll(guarded.identity(parent).value))
  {
    var behind := guarded.identity(guarded.sensitive[k]).value;
    assert ClearOfSensitive(folder, guarded.sensitive[k], guarded);
    OverlapIsMeeting(folder, behind);
    if FoldAll(folder) <= FoldAll(path) {
      PrefixesMeet(FoldAll(folder), FoldAll(behind), FoldAll(path));
    }
    forall n | 1 <= n < |guarded.sensitive[k]|
      ensures var parent: Path := guarded.sensitive[k][..n];
        guarded.identity(parent).Some? && !(FoldAll(folder) <= FoldAll(guarded.identity(parent).value))
    {
      ParentsClear(folder, guarded.sensitive[k], guarded, n);
    }
  }

  lemma {:induction false} ParentsClear(folder: Path, path: Path, guarded: Guarded, n: nat)
    requires ClearOfParents(folder, path, guarded) && 1 <= n < |path|
    ensures var parent: Path := path[..n];
      guarded.identity(parent).Some? && !(FoldAll(folder) <= FoldAll(guarded.identity(parent).value))
    decreases |path|
  {
    var parent := Parent(path);
    if n == |path| - 1 {
      ContainsIsPrefix(folder, guarded.identity(parent).value);
    } else {
      ParentsClear(folder, parent, guarded, n);
      assert parent[..n] == path[..n];
    }
  }
}
