/** The list of workspaces written for the guest (provisioning.go), whose checks fix the workspaces' guest folders. */
module WorkspaceManifest {
  import opened Common
  import opened CaseFold
  import opened PathMapping
  import Ordering

  datatype Entry = Entry(name: string, directory: Path)

  ghost predicate DistinctNames(workspaces: seq<Workspace>) {
    forall i, j :: 0 <= i < j < |workspaces| ==> Lower(workspaces[i].name) != Lower(workspaces[j].name)
  }

  predicate IsActive(workspace: Workspace, active: Path) {
    OwnGuestFolder(workspace) && FoldAll(GuestWorkspace(workspace.name)) == FoldAll(active)
  }

  ghost predicate HasActive(workspaces: seq<Workspace>, n: nat, active: Path)
    requires n <= |workspaces|
  {
    exists k :: 0 <= k < n && IsActive(workspaces[k], active)
  }

  ghost predicate Listable(workspaces: seq<Workspace>, active: Path) {
    && (forall k :: 0 <= k < |workspaces| ==> OwnGuestFolder(workspaces[k]))
    && DistinctNames(workspaces) && HasActive(workspaces, |workspaces|, active)
  }

  function EntryOf(workspace: Workspace): Entry
    requires OwnGuestFolder(workspace)
  {
    Entry(workspace.name, GuestWorkspace(workspace.name))
  }

  ghost predicate Filed(workspace: Workspace, entries: map<string, Entry>) {
    OwnGuestFolder(workspace) && Lower(workspace.name) in entries &&
      entries[Lower(workspace.name)] == EntryOf(workspace)
  }

  ghost predicate Named(workspaces: seq<Workspace>, key: string) {
    exists k :: 0 <= k < |workspaces| && Lower(workspaces[k].name) == key
  }

  /** The entries by their folded names. */
  ghost predicate EntriesOf(workspaces: seq<Workspace>, entries: map<string, Entry>) {
    && (forall k :: 0 <= k < |workspaces| ==> Filed(workspaces[k], entries))
    && (forall key :: key in entries ==> Named(workspaces, key))
  }

  function Names(entries: seq<Entry>): (r: seq<string>)
    ensures |r| == |entries| && forall k :: 0 <= k < |r| ==> r[k] == Lower(entries[k].name)
  {
    seq(|entries|, k requires 0 <= k < |entries| => Lower(entries[k].name))
  }

  ghost predicate IsEntry(workspace: Workspace, e: Entry) {
    OwnGuestFolder(workspace) && e == EntryOf(workspace)
  }

  /** The manifest of these workspaces: one entry for each, sorted by name up to case. */
  ghost predicate ManifestOf(workspaces: seq<Workspace>, entries: seq<Entry>) {
    && Ordering.StrictlySorted(Names(entries)) && (forall k :: 0 <= k < |workspaces| ==> OwnGuestFolder(workspaces[k]))
    && forall e :: e in entries <==> exists k :: 0 <= k < |workspaces| && IsEntry(workspaces[k], e)
  }

  method CollectEntries(workspaces: seq<Workspace>, active: Path) returns (ok: bool, entries: map<string, Entry>)
    ensures ok <==> Listable(workspaces, active)
    ensures ok ==> EntriesOf(workspaces, entries)
  {
    var activeFound := false;
    entries := map[];
    for i := 0 to |workspaces|
      invariant EntriesOf(workspaces[..i], entries) && DistinctNames(workspaces[..i])
      invariant activeFound <==> HasActive(workspaces, i, active)
    {
      var workspace := workspaces[i];
      if !OwnGuestFolder(workspace) || Lower(workspace.name) in entries {
        EntryRefused(workspaces, i, entries);
        return false, entries;
      }
      EntryAdded(workspaces, i, entries);
      ActiveStep(workspaces, i, active);
      activeFound := activeFound || FoldAll(GuestWorkspace(workspace.name)) == FoldAll(active);
      entries := entries[Lower(workspace.name) := EntryOf(workspace)];
    }
    assert workspaces[..|workspaces|] == workspaces;
    AllFiled(workspaces, entries);
    ok := activeFound;
  }

  lemma ActiveStep(workspaces: seq<Workspace>, i: nat, active: Path)
    requires i < |workspaces|
    ensures HasActive(workspaces, i + 1, active) <==>
      HasActive(workspaces, i, active) || IsActive(workspaces[i], active)
  {
  }

  lemma AllFiled(workspaces: seq<Workspace>, entries: map<string, Entry>)
    requires EntriesOf(workspaces, entries)
    ensures forall k :: 0 <= k < |workspaces| ==> OwnGuestFolder(workspaces[k])
  {
    forall k | 0 <= k < |workspaces| ensures OwnGuestFolder(workspaces[k]) {
      assert Filed(workspaces[k], entries);
    }
  }

  lemma EntryRefused(workspaces: seq<Workspace>, i: nat, entries: map<string, Entry>)
    requires i < |workspaces| && EntriesOf(workspaces[..i], entries)
    requires !OwnGuestFolder(workspaces[i]) || Lower(workspaces[i].name) in entries
    ensures forall active :: !Listable(workspaces, active)
  {
    if OwnGuestFolder(workspaces[i]) {
      var k := FiledAt(workspaces[..i], entries, Lower(workspaces[i].name));
      assert Lower(workspaces[k].name) == Lower(workspaces[i].name);
      assert !DistinctNames(workspaces);
    }
  }

  lemma NamesGrow(workspaces: seq<Workspace>, i: nat, key: string)
    requires i < |workspaces|
    ensures Named(workspaces[..i + 1], key) <==> Named(workspaces[..i], key) || key == Lower(workspaces[i].name)
  {
    var part, more := workspaces[..i], workspaces[..i + 1];
    if Named(part, key) {
      var k :| 0 <= k < |part| && Lower(part[k].name) == key;
      assert Lower(more[k].name) == key;
    }
    if Named(more, key) {
      var k :| 0 <= k < |more| && Lower(more[k].name) == key;
      assert k < i ==> Lower(part[k].name) == key;
    }
    assert Lower(more[i].name) == Lower(workspaces[i].name);
  }

  lemma NewName(workspaces: seq<Workspace>, i: nat)
    requires i < |workspaces| && DistinctNames(workspaces[..i]) && !Named(workspaces[..i], Lower(workspaces[i].name))
    ensures DistinctNames(workspaces[..i + 1])
  {
    var part, more := workspaces[..i], workspaces[..i + 1];
    forall j, k | 0 <= j < k < |more| ensures Lower(more[j].name) != Lower(more[k].name) {
      assert more[j] == part[j];
      assert k < i ==> more[k] == part[k];
    }
  }

  lemma EntryAdded(workspaces: seq<Workspace>, i: nat, entries: map<string, Entry>)
    requires i < |workspaces| && EntriesOf(workspaces[..i], entries) && DistinctNames(workspaces[..i])
    requires OwnGuestFolder(workspaces[i]) && Lower(workspaces[i].name) !in entries
    ensures DistinctNames(workspaces[..i + 1])
    ensures EntriesOf(workspaces[..i + 1], entries[Lower(workspaces[i].name) := EntryOf(workspaces[i])])
  {
    var part, key := workspaces[..i + 1], Lower(workspaces[i].name);
    var more := entries[key := EntryOf(workspaces[i])];
    forall k | 0 <= k < i ensures Filed(part[k], more) && Lower(part[k].name) != key {
      assert part[k] == workspaces[..i][k];
      assert Filed(workspaces[..i][k], entries);
    }
    NewName(workspaces, i);
    forall other | other in more ensures Named(part, other) {
      NamesGrow(workspaces, i, other);
    }
  }

  /** encodeGuestWorkspaceManifest, down to the encoding. */
  method Manifest(workspaces: seq<Workspace>, active: Path) returns (manifest: Option<seq<Entry>>)
    ensures manifest.Some? <==> Listable(workspaces, active)
    ensures manifest.Some? ==> ManifestOf(workspaces, manifest.value)
  {
    var ok, entries := CollectEntries(workspaces, active);
    if !ok {
      return None;
    }
    var keys := Ordering.Sorted(entries.Keys);
    var sorted: seq<Entry> := [];
    for i := 0 to |keys|
      invariant |sorted| == i && forall k :: 0 <= k < i ==> keys[k] in entries && sorted[k] == entries[keys[k]]
    {
      assert keys[i] in keys;
      sorted := sorted + [entries[keys[i]]];
    }
    EntriesSorted(workspaces, entries, keys, sorted);
    return Some(sorted);
  }

  lemma EntriesSorted(workspaces: seq<Workspace>, entries: map<string, Entry>, keys: seq<string>, sorted: seq<Entry>)
    requires EntriesOf(workspaces, entries)
    requires Ordering.StrictlySorted(keys) && forall key :: key in keys <==> key in entries
    requires |sorted| == |keys| && forall k :: 0 <= k < |keys| ==> keys[k] in entries && sorted[k] == entries[keys[k]]
    ensures ManifestOf(workspaces, sorted)
  {
    NamesAreKeys(workspaces, entries, keys, sorted);
    forall e ensures e in sorted <==> exists k :: 0 <= k < |workspaces| && IsEntry(workspaces[k], e) {
      if e in sorted {
        var i :| 0 <= i < |sorted| && sorted[i] == e;
        var k := FiledAt(workspaces, entries, keys[i]);
        assert IsEntry(workspaces[k], e);
      }
      if k :| 0 <= k < |workspaces| && IsEntry(workspaces[k], e) {
        assert Filed(workspaces[k], entries);
        KeyListed(entries, keys, sorted, Lower(workspaces[k].name));
      }
    }
  }

  lemma NamesAreKeys(workspaces: seq<Workspace>, entries: map<string, Entry>, keys: seq<string>, sorted: seq<Entry>)
    requires EntriesOf(workspaces, entries)
    requires |sorted| == |keys| && forall k :: 0 <= k < |keys| ==> keys[k] in entries && sorted[k] == entries[keys[k]]
    ensures Names(sorted) == keys
  {
    forall i | 0 <= i < |keys| ensures Names(sorted)[i] == keys[i] {
      var k := FiledAt(workspaces, entries, keys[i]);
    }
  }

  lemma KeyListed(entries: map<string, Entry>, keys: seq<string>, sorted: seq<Entry>, key: string)
    requires |sorted| == |keys| && forall k :: 0 <= k < |keys| ==> keys[k] in entries && sorted[k] == entries[keys[k]]
    requires key in keys
    ensures key in entries && entries[key] in sorted
  {
    var i :| 0 <= i < |keys| && keys[i] == key;
    assert sorted[i] == entries[key];
  }

  lemma FiledAt(workspaces: seq<Workspace>, entries: map<string, Entry>, key: string) returns (k: nat)
    requires EntriesOf(workspaces, entries) && key in entries
    ensures k < |workspaces| && Lower(workspaces[k].name) == key && IsEntry(workspaces[k], entries[key])
    ensures Lower(entries[key].name) == key
  {
    assert Named(workspaces, key);
    k :| 0 <= k < |workspaces| && Lower(workspaces[k].name) == key;
    assert Filed(workspaces[k], entries);
  }

  /** Workspaces can be listed for the guest only if every plan with them that renders translates one to one. */
  lemma ListedTranslate(plan: Plan, active: Path)
    requires Accepted(plan) && Listable(plan.workspaces, active)
    ensures OneToOne(Listed(plan))
  {
    RenderedOneToOne(plan);
  }
}
