/** Merging the tool requirements of the user script and the projects into one plan (project_plan.go): which layer
    decides over a tool, when two requirements conflict, and which plans are valid. Versions and names are text. */
module ToolPlan {
  import opened Common
  import opened CaseFold
  import opened Ordering
  import TerminalText

  datatype Requirement = Requirement(tool: string, version: string, series: string, source: string, directory: string)
  datatype Project = Project(name: string, tools: seq<Requirement>)
  datatype Owned = Owned(requirement: Requirement, owner: string)
  datatype Resolved = Resolved(tool: string, version: string, series: string, source: string, owners: seq<string>)

  /** A requirement and where it was stated. */
  datatype Item = ByUser(requirement: Requirement) | ByProject(project: string, requirement: Requirement)

  datatype FileRead = Missing | Unreadable | Found(version: string)

  /** What merging reads: the workspaces' host folders, path containment, the two project files, and %q. */
  datatype Env = Env(
    workspaces: map<string, string>, within: (string, string) -> bool,
    rustToolchain: string -> FileRead, playwrightLock: string -> Option<string>,
    quote: string -> string, names: map<string, string>)

  datatype MergeError = BadInput | Conflicting(tool: string)

  const LOCK := "node-project-lock"
  const TOOLCHAIN_FILE := "rust-toolchain.toml"
  const TOOLCHAIN := "rust-toolchain"
  const PROJECT_DIRECTORY := "$ProjectDirectory"
  const EXPLICIT := "explicit-provisioning"
  const SELECTED := "explicit-project-version"
  const PROJECT_FILE := "project-version-file"
  const DEFAULT := "stack-default"

  const TOOL_NAMES: seq<string> := [
    "@ferroxlabs/tvcontrol", "@playwright/cli", "AudioGridder", "astral-sh.uv", "Casey.Just", "Cockos.REAPER",
    "GoLang.Go", "Gyan.FFmpeg", "hyperframes", "KhronosGroup.VulkanSDK", "Kitware.CMake", "Microsoft.DotNet.SDK",
    "Microsoft.EdgeWebView2Runtime", "Microsoft.OpenJDK", "nextest.cargo-nextest", "NSIS.NSIS", "OpenJS.NodeJS",
    "Oven-sh.Bun", "playwright", "Python", "Rustlang.Rustup", "rust-toolchain", "TradingView.TradingViewDesktop",
    "zig.zig"]

  function NameTable(names: seq<string>): (table: map<string, string>)
    ensures |table| <= |names| && forall identity :: identity in table ==> Lower(table[identity]) == identity
    ensures "" in table ==> "" in names
  {
    if names == [] then map[] else NameTable(names[..|names| - 1])[Lower(names[|names| - 1]) := names[|names| - 1]]
  }

  /** What the table of canonical names is: keyed by the names in lower case, and small. */
  ghost predicate WellFormedTable(table: map<string, string>) {
    |table| <= 64 && "" !in table && forall identity :: identity in table ==> Lower(table[identity]) == identity
  }

  // ---------------------------------------------------------------- what a requirement contributes

  predicate Letter(c: char) {
    'A' <= c <= 'Z' || 'a' <= c <= 'z' || '0' <= c <= '9'
  }

  predicate ToolToken(text: string) {
    1 <= |text| <= 128 && (Letter(text[0]) || text[0] == '@') &&
    forall k :: 0 <= k < |text| ==> Letter(text[k]) || text[k] in "._+@/-"
  }

  predicate ToolValue(text: string) {
    1 <= |text| <= 128 && Letter(text[0]) && forall k :: 0 <= k < |text| ==> Letter(text[k]) || text[k] in "._+-"
  }

  function Identity(o: Owned): string {
    Lower(o.requirement.tool)
  }

  /** strings.Split(text, "."). */
  function SplitDots(text: string): (r: seq<string>)
    ensures r != []
  {
    if text == "" then [""]
    else if text[0] == '.' then [""] + SplitDots(text[1..])
    else
      var rest := SplitDots(text[1..]);
      [[text[0]] + rest[0]] + rest[1..]
  }

  /** The series of a Python version. */
  function PythonSeries(version: string): string
    requires |SplitDots(version)| >= 3
  {
    SplitDots(version)[0] + "." + SplitDots(version)[1]
  }

  predicate Valid(o: Owned, names: map<string, string>) {
    var r := o.requirement;
    && Lower(r.tool) in names && r.tool == names[Lower(r.tool)] && ToolToken(r.tool)
    && (r.version != "" ==> ToolValue(r.version)) && (r.series != "" ==> ToolValue(r.series))
    && r.source != "" && |TerminalText.Encode(r.source)| <= 64
    && (r.directory != "" ==> Lower(r.tool) == Lower(TOOLCHAIN))
    && (Lower(r.tool) == "python" && r.version != "" ==> |SplitDots(r.version)| >= 3)
  }

  /** The characters of names and of versions: a letter or digit first, or an at sign for a name, and never a space, a
      quote or a backslash. */
  lemma TokenIff(text: string)
    ensures ToolToken(text) <==>
      && 0 < |text| < 129 && text[0] !in "._+-/"
      && forall c :: c in text ==> c in "._+-@/" || '0' <= c <= '9' || 'A' <= c <= 'Z' || 'a' <= c <= 'z'
    ensures ToolValue(text) <==>
      && 0 < |text| < 129 && text[0] !in "._+-"
      && forall c :: c in text ==> c in "._+-" || '0' <= c <= '9' || 'A' <= c <= 'Z' || 'a' <= c <= 'z'
  {
    assert forall k :: 0 <= k < |text| ==> text[k] in text;
  }

  /** A well-formed requirement: a canonical name, version and series as tokens or empty, a short source, a directory
      for the toolchain only, and at least three parts in a Python version. */
  lemma ValidIff(o: Owned, names: map<string, string>)
    ensures Valid(o, names) <==>
      var r := o.requirement;
      && ToolToken(r.tool) && Lower(r.tool) in names && names[Lower(r.tool)] == r.tool
      && (r.version == "" || ToolValue(r.version)) && (r.series == "" || ToolValue(r.series))
      && 0 < |r.source| && |TerminalText.Encode(r.source)| < 65
      && (r.directory == "" || Identity(o) == Lower(TOOLCHAIN))
      && (Identity(o) != "python" || r.version == "" || |SplitDots(r.version)| > 2)
  {
  }

  predicate HasValue(o: Owned) {
    o.requirement.version != "" || o.requirement.series != ""
  }

  datatype Layer = Stated | InProjectFile

  function LayerOf(o: Owned): Layer {
    if o.requirement.source == TOOLCHAIN_FILE then InProjectFile else Stated
  }

  function VersionOf(o: Owned): set<string> {
    if o.requirement.version != "" then {o.requirement.version} else {}
  }

  function SeriesOf(o: Owned): set<string> {
    (if o.requirement.series != "" then {o.requirement.series} else {}) +
    (if Identity(o) == "python" && o.requirement.version != "" && |SplitDots(o.requirement.version)| >= 3
     then {PythonSeries(o.requirement.version)} else {})
  }

  // ---------------------------------------------------------------- the plan of a set of requirements

  function Identities(owned: set<Owned>): set<string> {
    set o | o in owned :: Identity(o)
  }

  function Versions(owned: set<Owned>, identity: string, layer: Layer): set<string> {
    set o, v | o in owned && Identity(o) == identity && LayerOf(o) == layer && v in VersionOf(o) :: v
  }

  function Series(owned: set<Owned>, identity: string, layer: Layer): set<string> {
    set o, v | o in owned && Identity(o) == identity && LayerOf(o) == layer && v in SeriesOf(o) :: v
  }

  function Owners(owned: set<Owned>, identity: string): set<string> {
    set o | o in owned && Identity(o) == identity :: o.owner
  }

  predicate StatedDirectly(owned: set<Owned>, identity: string) {
    exists o :: o in owned && Identity(o) == identity && HasValue(o) && o.requirement.source != LOCK &&
      LayerOf(o) == Stated
  }

  predicate StatedByLock(owned: set<Owned>, identity: string) {
    exists o :: o in owned && Identity(o) == identity && HasValue(o) && o.requirement.source == LOCK
  }

  predicate LayerEmpty(owned: set<Owned>, identity: string, layer: Layer) {
    Versions(owned, identity, layer) == {} && Series(owned, identity, layer) == {}
  }

  /** The layer that counts: what is stated, or else what the project files say. */
  function Winner(owned: set<Owned>, identity: string): Layer {
    if LayerEmpty(owned, identity, Stated) then InProjectFile else Stated
  }

  ghost predicate Several(values: set<string>) {
    exists x, y :: x in values && y in values && x != y
  }

  /** Two versions or two series in the layer that counts. */
  ghost predicate Conflict(owned: set<Owned>, identity: string) {
    Several(Versions(owned, identity, Winner(owned, identity))) ||
      Several(Series(owned, identity, Winner(owned, identity)))
  }

  ghost predicate Only(values: set<string>, value: string) {
    if values == {} then value == "" else values == {value}
  }

  function SourceOf(owned: set<Owned>, identity: string): string {
    if !LayerEmpty(owned, identity, Stated) then
      if !StatedDirectly(owned, identity) && StatedByLock(owned, identity) then SELECTED else EXPLICIT
    else if !LayerEmpty(owned, identity, InProjectFile) then PROJECT_FILE
    else DEFAULT
  }

  /** What the plan has to say of a tool. */
  ghost predicate Resolves(owned: set<Owned>, identity: string, t: Resolved) {
    && Lower(t.tool) == identity && (exists o :: o in owned && o.requirement.tool == t.tool)
    && Only(Versions(owned, identity, Winner(owned, identity)), t.version)
    && Only(Series(owned, identity, Winner(owned, identity)), t.series)
    && t.source == SourceOf(owned, identity)
    && StrictlySorted(t.owners) && (forall owner :: owner in t.owners <==> owner in Owners(owned, identity))
  }

  function PlanIdentities(plan: seq<Resolved>): (r: seq<string>)
    ensures |r| == |plan| && forall k :: 0 <= k < |r| ==> r[k] == Lower(plan[k].tool)
  {
    seq(|plan|, k requires 0 <= k < |plan| => Lower(plan[k].tool))
  }

  /** One entry for each tool, in order. */
  ghost predicate IsPlan(owned: set<Owned>, plan: seq<Resolved>) {
    && StrictlySorted(PlanIdentities(plan))
    && (forall identity :: identity in PlanIdentities(plan) <==> identity in Identities(owned))
    && (forall k :: 0 <= k < |plan| ==> Resolves(owned, Lower(plan[k].tool), plan[k]))
  }

  ghost predicate AllValid(owned: set<Owned>, names: map<string, string>) {
    forall o :: o in owned ==> Valid(o, names)
  }

  /** What merging a set of requirements may answer; the lemmas below show that there is one answer. */
  ghost predicate IsMerged(owned: set<Owned>, names: map<string, string>, result: Result<seq<Resolved>, MergeError>) {
    match result
    case Ok(plan) => AllValid(owned, names) && (forall identity :: !Conflict(owned, identity)) && IsPlan(owned, plan)
    case Err(BadInput) => !AllValid(owned, names)
    case Err(Conflicting(tool)) =>
      && AllValid(owned, names) && Conflict(owned, Lower(tool)) && tool == names[Lower(tool)]
      && forall identity :: Conflict(owned, identity) ==> identity == Lower(tool) || Less(Lower(tool), identity)
  }

  // ---------------------------------------------------------------- there is one answer

  lemma OnlyOne(values: set<string>, a: string, b: string)
    requires Only(values, a) && Only(values, b)
    ensures a == b
  {
    assert values != {} ==> a in values && b in values;
  }

  lemma ResolvesOnce(owned: set<Owned>, names: map<string, string>, identity: string, a: Resolved, b: Resolved)
    requires AllValid(owned, names) && Resolves(owned, identity, a) && Resolves(owned, identity, b)
    ensures a == b
  {
    assert a.tool == names[identity] == b.tool;
    OnlyOne(Versions(owned, identity, Winner(owned, identity)), a.version, b.version);
    OnlyOne(Series(owned, identity, Winner(owned, identity)), a.series, b.series);
    SortedUnique(a.owners, b.owners);
  }

  lemma PlansEqual(owned: set<Owned>, names: map<string, string>, a: seq<Resolved>, b: seq<Resolved>)
    requires AllValid(owned, names) && IsPlan(owned, a) && IsPlan(owned, b)
    ensures a == b
  {
    SortedUnique(PlanIdentities(a), PlanIdentities(b));
    forall k | 0 <= k < |a| ensures a[k] == b[k] {
      assert PlanIdentities(a)[k] == PlanIdentities(b)[k];
      ResolvesOnce(owned, names, Lower(a[k].tool), a[k], b[k]);
    }
  }

  /** The merge is determined by the set of requirements, errors included. */
  lemma MergedOnce(owned: set<Owned>, names: map<string, string>, a: Result<seq<Resolved>, MergeError>,
                   b: Result<seq<Resolved>, MergeError>)
    requires IsMerged(owned, names, a) && IsMerged(owned, names, b)
    ensures a == b
  {
    if a.Ok? && b.Ok? {
      PlansEqual(owned, names, a.value, b.value);
    } else if a.Err? && b.Err? && a.error.Conflicting? && b.error.Conflicting? {
      LessTotal(Lower(a.error.tool), Lower(b.error.tool));
    }
  }

  // ---------------------------------------------------------------- merging requirement by requirement

  /** The merge's entry for one tool. */
  datatype Entry = Entry(
    name: string, versions: map<Layer, set<string>>, series: map<Layer, set<string>>,
    direct: bool, selected: bool, owners: set<string>)

  function NewEntry(name: string): Entry {
    Entry(name, map[Stated := {}, InProjectFile := {}], map[Stated := {}, InProjectFile := {}], false, false, {})
  }

  /** An entry says what the requirements of its tool say. */
  ghost predicate EntryOf(owned: set<Owned>, identity: string, entry: Entry) {
    && Lower(entry.name) == identity && (exists o :: o in owned && o.requirement.tool == entry.name)
    && (forall layer :: layer in entry.versions && entry.versions[layer] == Versions(owned, identity, layer))
    && (forall layer :: layer in entry.series && entry.series[layer] == Series(owned, identity, layer))
    && (entry.direct <==> StatedDirectly(owned, identity))
    && (entry.selected <==> StatedByLock(owned, identity))
    && entry.owners == Owners(owned, identity)
  }

  /** One more requirement, in a set. */
  lemma OneMore(owned: set<Owned>, o: Owned, identity: string, layer: Layer)
    ensures Identity(o) != identity ==>
      && Versions(owned + {o}, identity, layer) == Versions(owned, identity, layer)
      && Series(owned + {o}, identity, layer) == Series(owned, identity, layer)
    ensures Identity(o) == identity ==>
      && Versions(owned + {o}, identity, layer) ==
           Versions(owned, identity, layer) + (if LayerOf(o) == layer then VersionOf(o) else {})
      && Series(owned + {o}, identity, layer) ==
           Series(owned, identity, layer) + (if LayerOf(o) == layer then SeriesOf(o) else {})
  {
    var all := owned + {o};
    assert forall p :: p in all <==> p in owned || p == o;
  }

  lemma OneMoreOwner(owned: set<Owned>, o: Owned, identity: string)
    ensures Owners(owned + {o}, identity) ==
      Owners(owned, identity) + (if Identity(o) == identity then {o.owner} else {})
    ensures StatedDirectly(owned + {o}, identity) <==>
      (StatedDirectly(owned, identity) ||
      (Identity(o) == identity && HasValue(o) && o.requirement.source != LOCK && LayerOf(o) == Stated))
    ensures StatedByLock(owned + {o}, identity) <==>
      (StatedByLock(owned, identity) || (Identity(o) == identity && HasValue(o) && o.requirement.source == LOCK))
    ensures Identities(owned + {o}) == Identities(owned) + {Identity(o)}
  {
    var all := owned + {o};
    assert forall p :: p in all <==> p in owned || p == o;
  }

  function With(values: map<Layer, set<string>>, layer: Layer, more: set<string>): map<Layer, set<string>>
    requires layer in values
  {
    values[layer := values[layer] + more]
  }

  function LayerPart(o: Owned, layer: Layer, values: set<string>): set<string> {
    if LayerOf(o) == layer then values else {}
  }

  ghost predicate Complete(entry: Entry) {
    forall layer :: layer in entry.versions && layer in entry.series
  }

  ghost predicate Extends(entry: Entry, o: Owned, extended: Entry)
    requires Complete(entry) && Complete(extended)
  {
    && extended.name == entry.name && extended.owners == entry.owners + {o.owner}
    && (forall layer :: extended.versions[layer] == entry.versions[layer] + LayerPart(o, layer, VersionOf(o)))
    && (forall layer :: extended.series[layer] == entry.series[layer] + LayerPart(o, layer, SeriesOf(o)))
    && (extended.direct <==> entry.direct || (HasValue(o) && o.requirement.source != LOCK && LayerOf(o) == Stated))
    && (extended.selected <==> entry.selected || (HasValue(o) && o.requirement.source == LOCK))
  }

  method Values(o: Owned) returns (versions: set<string>, series: set<string>)
    ensures versions == VersionOf(o) && series == SeriesOf(o)
  {
    var r := o.requirement;
    versions, series := {}, {};
    if r.version != "" {
      versions := versions + {r.version};
    }
    if r.series != "" {
      series := series + {r.series};
    }
    if Identity(o) == "python" && r.version != "" && |SplitDots(r.version)| >= 3 {
      series := series + {PythonSeries(r.version)};
    }
  }

  /** The entry of a tool after one more requirement. */
  method Extend(entry: Entry, o: Owned) returns (extended: Entry)
    requires Complete(entry)
    ensures Complete(extended) && Extends(entry, o, extended)
  {
    var layer, r := LayerOf(o), o.requirement;
    var direct, selected := entry.direct, entry.selected;
    if HasValue(o) {
      if r.source == LOCK {
        selected := true;
      } else if r.source != TOOLCHAIN_FILE {
        direct := true;
      }
    }
    var versions, series := Values(o);
    extended := Entry(entry.name, With(entry.versions, layer, versions), With(entry.series, layer, series),
      direct, selected, entry.owners + {o.owner});
  }

  lemma ExtendsKeeps(owned: set<Owned>, o: Owned, entry: Entry, extended: Entry)
    requires EntryOf(owned, Identity(o), entry) && Complete(entry) && Complete(extended) && Extends(entry, o, extended)
    ensures EntryOf(owned + {o}, Identity(o), extended)
  {
    OneMoreOwner(owned, o, Identity(o));
    forall layer
      ensures extended.versions[layer] == Versions(owned + {o}, Identity(o), layer)
      ensures extended.series[layer] == Series(owned + {o}, Identity(o), layer)
    {
      OneMore(owned, o, Identity(o), layer);
    }
  }

  lemma OthersKeep(owned: set<Owned>, o: Owned, identity: string, entry: Entry)
    requires EntryOf(owned, identity, entry) && identity != Identity(o)
    ensures EntryOf(owned + {o}, identity, entry)
  {
    OneMoreOwner(owned, o, identity);
    forall layer
      ensures Versions(owned + {o}, identity, layer) == Versions(owned, identity, layer)
      ensures Series(owned + {o}, identity, layer) == Series(owned, identity, layer)
    {
      OneMore(owned, o, identity, layer);
    }
  }

  ghost predicate EntriesOf(owned: set<Owned>, merged: map<string, Entry>) {
    && merged.Keys == Identities(owned)
    && forall identity :: identity in merged ==> EntryOf(owned, identity, merged[identity])
  }

  lemma FirstEntry(owned: set<Owned>, o: Owned, extended: Entry, name: string)
    requires Identity(o) !in Identities(owned) && name == o.requirement.tool
    requires Complete(extended) && Complete(NewEntry(name)) && Extends(NewEntry(name), o, extended)
    ensures EntryOf(owned + {o}, Identity(o), extended)
  {
    assert forall p :: p in owned ==> Identity(p) != Identity(o);
    OneMoreOwner(owned, o, Identity(o));
    forall layer
      ensures extended.versions[layer] == Versions(owned + {o}, Identity(o), layer)
      ensures extended.series[layer] == Series(owned + {o}, Identity(o), layer)
    {
      OneMore(owned, o, Identity(o), layer);
      assert Versions(owned, Identity(o), layer) == {} == Series(owned, Identity(o), layer);
    }
    assert Owners(owned, Identity(o)) == {};
    assert o in owned + {o};
  }

  lemma NewEntryComplete(name: string)
    ensures Complete(NewEntry(name))
  {
    forall layer ensures layer in NewEntry(name).versions && layer in NewEntry(name).series {
      match layer
      case Stated =>
      case InProjectFile =>
    }
  }

  method AddRequirement(merged: map<string, Entry>, o: Owned, ghost owned: set<Owned>)
    returns (more: map<string, Entry>)
    requires EntriesOf(owned, merged)
    ensures EntriesOf(owned + {o}, more)
  {
    var identity := Identity(o);
    var entry := if identity in merged then merged[identity] else NewEntry(o.requirement.tool);
    assert identity in merged ==> EntryOf(owned, identity, merged[identity]);
    NewEntryComplete(o.requirement.tool);
    var extended := Extend(entry, o);
    more := merged[identity := extended];
    if identity in merged {
      ExtendsKeeps(owned, o, entry, extended);
    } else {
      FirstEntry(owned, o, extended, o.requirement.tool);
    }
    OneMoreOwner(owned, o, identity);
    forall other | other in merged && other != identity ensures EntryOf(owned + {o}, other, merged[other]) {
      OthersKeep(owned, o, other, merged[other]);
    }
  }

  ghost function SetOf(owned: seq<Owned>): set<Owned> {
    set o | o in owned
  }

  lemma SetOfPrefix(owned: seq<Owned>, i: nat)
    requires i <= |owned|
    ensures SetOf(owned[..0]) == {}
    ensures i < |owned| ==> SetOf(owned[..i + 1]) == SetOf(owned[..i]) + {owned[i]}
    ensures i == |owned| ==> SetOf(owned[..i]) == SetOf(owned)
  {
    if i < |owned| {
      assert owned[..i + 1] == owned[..i] + [owned[i]];
    } else {
      assert owned[..i] == owned;
    }
  }

  lemma InvalidAmong(owned: seq<Owned>, names: map<string, string>, i: nat)
    requires i < |owned| && !Valid(owned[i], names)
    ensures !AllValid(SetOf(owned), names)
  {
    assert owned[i] in SetOf(owned);
  }

  /** The checks of the merge loop, which reports the first requirement that fails them. */
  method CheckOwned(owned: seq<Owned>, names: map<string, string>) returns (ok: bool)
    ensures ok <==> AllValid(SetOf(owned), names)
  {
    for i := 0 to |owned|
      invariant forall k :: 0 <= k < i ==> Valid(owned[k], names)
    {
      if !Valid(owned[i], names) {
        InvalidAmong(owned, names, i);
        return false;
      }
    }
    ok := true;
  }

  /** The rest of the merge loop. */
  method MergeOwned(owned: seq<Owned>) returns (merged: map<string, Entry>)
    ensures EntriesOf(SetOf(owned), merged)
  {
    merged := map[];
    NothingMerged();
    SetOfPrefix(owned, 0);
    for i := 0 to |owned|
      invariant EntriesOf(SetOf(owned[..i]), merged)
    {
      merged := AddRequirement(merged, owned[i], SetOf(owned[..i]));
      SetOfPrefix(owned, i);
    }
    SetOfPrefix(owned, |owned|);
  }

  lemma NothingMerged()
    ensures EntriesOf({}, map[])
  {
  }

  /** onlyRequirementValue. */
  method OnlyValue(values: set<string>) returns (several: bool, value: string)
    ensures several <==> Several(values)
    ensures !several ==> Only(values, value)
  {
    value := "";
    several := false;
    if values != {} {
      value :| value in values;
      several := values - {value} != {};
      if several {
        ghost var other :| other in values - {value};
      } else {
        assert values == {value};
      }
    }
  }

  method ResolveTool(entry: Entry, ghost owned: set<Owned>, identity: string) returns (conflict: bool, t: Resolved)
    requires EntryOf(owned, identity, entry)
    ensures conflict <==> Conflict(owned, identity)
    ensures !conflict ==> Resolves(owned, identity, t)
  {
    var layer, source := Stated, EXPLICIT;
    if !entry.direct && entry.selected {
      source := SELECTED;
    }
    if entry.versions[Stated] == {} && entry.series[Stated] == {} {
      layer, source := InProjectFile, PROJECT_FILE;
      if entry.versions[InProjectFile] == {} && entry.series[InProjectFile] == {} {
        source := DEFAULT;
      }
    }
    assert layer == Winner(owned, identity);
    var severalVersions, version := OnlyValue(entry.versions[layer]);
    var severalSeries, series := OnlyValue(entry.series[layer]);
    conflict := severalVersions || severalSeries;
    var owners := Sorted(entry.owners);
    t := Resolved(entry.name, version, series, source, owners);
  }

  ghost predicate Enumerates(owned: set<Owned>, identities: seq<string>) {
    StrictlySorted(identities) && forall x :: x in identities <==> x in Identities(owned)
  }

  lemma UnownedNoConflict(owned: set<Owned>, identity: string)
    requires identity !in Identities(owned)
    ensures !Conflict(owned, identity)
  {
    forall layer ensures Versions(owned, identity, layer) == {} == Series(owned, identity, layer) {}
  }

  lemma ConflictPlace(owned: set<Owned>, identities: seq<string>, identity: string) returns (k: nat)
    requires Enumerates(owned, identities) && Conflict(owned, identity)
    ensures k < |identities| && identities[k] == identity
  {
    if identity !in Identities(owned) {
      UnownedNoConflict(owned, identity);
    }
    k :| 0 <= k < |identities| && identities[k] == identity;
  }

  lemma FirstConflict(owned: set<Owned>, names: map<string, string>, identities: seq<string>, i: nat, entry: Entry)
    requires Enumerates(owned, identities) && AllValid(owned, names) && i < |identities|
    requires forall k :: 0 <= k < i ==> !Conflict(owned, identities[k])
    requires Conflict(owned, identities[i]) && EntryOf(owned, identities[i], entry)
    ensures IsMerged(owned, names, Err(Conflicting(entry.name)))
  {
    forall identity | Conflict(owned, identity) ensures identity == identities[i] || Less(identities[i], identity) {
      var k := ConflictPlace(owned, identities, identity);
    }
  }

  lemma WholePlan(owned: set<Owned>, names: map<string, string>, identities: seq<string>, plan: seq<Resolved>)
    requires Enumerates(owned, identities) && AllValid(owned, names) && PlanIdentities(plan) == identities
    requires forall k :: 0 <= k < |plan| ==> !Conflict(owned, identities[k]) && Resolves(owned, identities[k], plan[k])
    ensures IsMerged(owned, names, Ok(plan))
  {
    forall identity ensures !Conflict(owned, identity) {
      if identity !in Identities(owned) {
        UnownedNoConflict(owned, identity);
      } else {
        var k :| 0 <= k < |identities| && identities[k] == identity;
      }
    }
    forall k | 0 <= k < |plan| ensures Resolves(owned, Lower(plan[k].tool), plan[k]) {
      assert PlanIdentities(plan)[k] == identities[k];
    }
  }

  ghost predicate ResolvedUpTo(owned: set<Owned>, identities: seq<string>, plan: seq<Resolved>, i: nat) {
    && i <= |identities| && PlanIdentities(plan) == identities[..i]
    && forall k :: 0 <= k < i ==> !Conflict(owned, identities[k]) && Resolves(owned, identities[k], plan[k])
  }

  lemma PlanGrows(owned: set<Owned>, identities: seq<string>, plan: seq<Resolved>, i: nat, t: Resolved)
    requires ResolvedUpTo(owned, identities, plan, i) && i < |identities|
    requires !Conflict(owned, identities[i]) && Resolves(owned, identities[i], t)
    ensures ResolvedUpTo(owned, identities, plan + [t], i + 1)
  {
    assert PlanIdentities(plan + [t]) == identities[..i + 1];
  }

  method ResolveNext(merged: map<string, Entry>, identities: seq<string>, plan: seq<Resolved>, i: nat,
                     ghost owned: set<Owned>)
    returns (conflict: bool, tool: string, longer: seq<Resolved>)
    requires EntriesOf(owned, merged) && i < |identities| && identities[i] in merged
    requires ResolvedUpTo(owned, identities, plan, i)
    ensures conflict ==> Conflict(owned, identities[i]) && EntryOf(owned, identities[i], merged[identities[i]])
    ensures tool == merged[identities[i]].name
    ensures !conflict ==> ResolvedUpTo(owned, identities, longer, i + 1)
  {
    var entry := merged[identities[i]];
    assert EntryOf(owned, identities[i], entry);
    tool, longer := entry.name, plan;
    var t;
    conflict, t := ResolveTool(entry, owned, identities[i]);
    if !conflict {
      PlanGrows(owned, identities, plan, i, t);
      longer := plan + [t];
    }
  }

  /** The entries in order, up to the first conflict. */
  method ResolveAll(merged: map<string, Entry>, ghost owned: set<Owned>, ghost names: map<string, string>)
    returns (result: Result<seq<Resolved>, MergeError>)
    requires EntriesOf(owned, merged) && AllValid(owned, names)
    ensures IsMerged(owned, names, result)
  {
    var identities := Sorted(merged.Keys);
    assert Enumerates(owned, identities);
    var plan := [];
    assert ResolvedUpTo(owned, identities, plan, 0);
    for i := 0 to |identities|
      invariant ResolvedUpTo(owned, identities, plan, i)
    {
      assert identities[i] in identities;
      var conflict, tool;
      conflict, tool, plan := ResolveNext(merged, identities, plan, i, owned);
      if conflict {
        FirstConflict(owned, names, identities, i, merged[identities[i]]);
        return Err(Conflicting(tool));
      }
    }
    WholePlan(owned, names, identities, plan);
    return Ok(plan);
  }

  // ---------------------------------------------------------------- collecting the requirements

  function OwnerOf(env: Env, item: Item): string {
    match item
    case ByUser(r) => "user.ps1 (" + r.source + ")"
    case ByProject(project, r) => "project " + env.quote(project) + " (" + r.source + ")"
  }

  function Collected(env: Env, item: Item): Owned {
    Owned(item.requirement, OwnerOf(env, item))
  }

  /** A Playwright version to be read from the project's package lock. */
  predicate IsLock(item: Item) {
    item.ByProject? && item.requirement.source == LOCK
  }

  predicate IsToolchain(item: Item) {
    item.ByProject? && Lower(item.requirement.tool) == Lower(TOOLCHAIN)
  }

  predicate ItemOk(env: Env, item: Item) {
    var r := item.requirement;
    if item.ByUser? then r.directory != PROJECT_DIRECTORY
    else
      && (IsLock(item) ==>
        item.project in env.workspaces && r.tool == "playwright" && r.version == "" && r.series == "" &&
          r.directory == "")
      && (IsToolchain(item) ==>
        && item.project in env.workspaces
        && (r.directory == PROJECT_DIRECTORY || r.directory == "" ||
             env.within(env.workspaces[item.project], r.directory)))
  }

  /** The folder whose toolchain file counts for a project; empty for none. */
  function ToolchainRoot(env: Env, item: Item): string
    requires IsToolchain(item)
  {
    var root := if item.requirement.directory != PROJECT_DIRECTORY then item.requirement.directory
      else if item.project in env.workspaces then env.workspaces[item.project] else "";
    if item.requirement.source == "handy" && root != "" then root + "\\src-tauri" else root
  }

  function ReadToolchain(env: Env, root: string): FileRead {
    if root == "" then Missing else env.rustToolchain(root)
  }

  function ReadLock(env: Env, project: string): Option<string> {
    if project in env.workspaces then env.playwrightLock(env.workspaces[project]) else None
  }

  /** What may be asked for: a user's requirement names no project folder; a version from the lock only playwright's,
      of a known project; a project's toolchain file only within the project. */
  lemma ItemOkIff(env: Env, project: string, r: Requirement)
    ensures ItemOk(env, ByUser(r)) <==> r.directory != PROJECT_DIRECTORY
    ensures r.source == LOCK ==>
      (ItemOk(env, ByProject(project, r)) <==>
        project in env.workspaces && r == Requirement("playwright", "", "", LOCK, ""))
    ensures r.source != LOCK && Lower(r.tool) == Lower(TOOLCHAIN) ==>
      (ItemOk(env, ByProject(project, r)) <==>
        project in env.workspaces &&
          (r.directory in {"", PROJECT_DIRECTORY} || env.within(env.workspaces[project], r.directory)))
    ensures r.source != LOCK && Lower(r.tool) != Lower(TOOLCHAIN) ==> ItemOk(env, ByProject(project, r))
  {
    LockedIsNoToolchain();
  }

  lemma LockedIsNoToolchain()
    ensures Lower("playwright") != Lower(TOOLCHAIN)
  {
    assert |Lower("playwright")| == 10 && |Lower(TOOLCHAIN)| == 14;
  }

  /** Where the toolchain file of a requirement is looked for: in the directory it names, in the project's folder when
      it says so, nowhere when it names none; and for one source in a folder below. */
  lemma ToolchainRootIs(env: Env, project: string, r: Requirement)
    requires Lower(r.tool) == Lower(TOOLCHAIN) && project in env.workspaces
    ensures var root := ToolchainRoot(env, ByProject(project, r));
      && (r.directory == "" ==> root == "" && ReadToolchain(env, root) == Missing)
      && (r.source != "handy" ==>
            (r.directory == PROJECT_DIRECTORY ==> root == env.workspaces[project])
            && (r.directory != PROJECT_DIRECTORY ==> root == r.directory))
      && (r.source == "handy" && r.directory != PROJECT_DIRECTORY && r.directory != "" ==>
            root == r.directory + "\\src-tauri")
      && (r.source == "handy" && r.directory == PROJECT_DIRECTORY && env.workspaces[project] != "" ==>
            root == env.workspaces[project] + "\\src-tauri")
      && (root != "" ==> ReadToolchain(env, root) == env.rustToolchain(root))
  {
    assert |PROJECT_DIRECTORY| > 0;
  }

  function WithVersion(o: Owned, version: string): Owned {
    o.(requirement := o.requirement.(version := version))
  }

  /** The requirement, with the locked version filled in. */
  function Filled(env: Env, item: Item): Owned {
    if IsLock(item) && ReadLock(env, item.project).Some?
    then WithVersion(Collected(env, item), ReadLock(env, item.project).value)
    else Collected(env, item)
  }

  function FromFile(env: Env, project: string, version: string): Owned {
    Owned(
      Requirement(TOOLCHAIN, version, "", TOOLCHAIN_FILE, ""),
      "project " + env.quote(project) + " (" + TOOLCHAIN_FILE + ")")
  }

  predicate StatesToolchain(item: Item) {
    var r := item.requirement;
    r.source != LOCK && (r.version != "" || r.series != "") && Lower(r.tool) == Lower(TOOLCHAIN)
  }

  /** A stated toolchain makes the toolchain files irrelevant. */
  predicate ToolchainStated(items: set<Item>) {
    exists item :: item in items && StatesToolchain(item)
  }

  ghost predicate Readable(env: Env, items: set<Item>) {
    && (forall item :: item in items ==> ItemOk(env, item))
    && (forall item :: item in items && IsLock(item) ==> ReadLock(env, item.project).Some?)
    && (!ToolchainStated(items) ==>
      forall item :: item in items && IsToolchain(item) ==> ReadToolchain(env, ToolchainRoot(env, item)) != Unreadable)
  }

  predicate FoundFor(env: Env, item: Item) {
    IsToolchain(item) && ReadToolchain(env, ToolchainRoot(env, item)).Found?
  }

  /** What the project's toolchain file says. */
  function FileVersion(env: Env, item: Item): Owned
    requires FoundFor(env, item)
  {
    FromFile(env, item.project, ReadToolchain(env, ToolchainRoot(env, item)).version)
  }

  /** Every requirement that takes part: the stated ones, and the toolchain files when no toolchain is stated. */
  ghost function AllOwned(env: Env, items: set<Item>): set<Owned> {
    (set item | item in items :: Filled(env, item)) +
    (if ToolchainStated(items) then {} else set item | item in items && FoundFor(env, item) :: FileVersion(env, item))
  }

  /** The specification: the answer is a function of the set of requirements stated, whatever their order. */
  ghost predicate IsAnswer(env: Env, items: set<Item>, result: Result<seq<Resolved>, MergeError>) {
    if Readable(env, items) then IsMerged(AllOwned(env, items), env.names, result) else result == Err(BadInput)
  }

  ghost function ItemsOf(user: seq<Requirement>, projects: seq<Project>): set<Item> {
    (set r | r in user :: ByUser(r)) + (set p, r | p in projects && r in p.tools :: ByProject(p.name, r))
  }

  lemma AnswerOnce(env: Env, items: set<Item>, a: Result<seq<Resolved>, MergeError>,
                   b: Result<seq<Resolved>, MergeError>)
    requires IsAnswer(env, items, a) && IsAnswer(env, items, b)
    ensures a == b
  {
    if Readable(env, items) {
      MergedOnce(AllOwned(env, items), env.names, a, b);
    }
  }

  ghost predicate States(projects: seq<Project>, name: string, r: Requirement) {
    exists p :: p in projects && p.name == name && r in p.tools
  }

  /** The merge does not depend on the order of the user's tools, of the projects, or of the tools within a project,
      nor on repeats: neither in the plan nor in the error. */
  lemma MergeIgnoresOrder(env: Env, user: seq<Requirement>, projects: seq<Project>, user': seq<Requirement>,
                          projects': seq<Project>,
                          a: Result<seq<Resolved>, MergeError>, b: Result<seq<Resolved>, MergeError>)
    requires forall r :: r in user <==> r in user'
    requires forall name, r :: States(projects, name, r) <==> States(projects', name, r)
    requires IsAnswer(env, ItemsOf(user, projects), a) && IsAnswer(env, ItemsOf(user', projects'), b)
    ensures a == b
  {
    forall item ensures item in ItemsOf(user, projects) <==> item in ItemsOf(user', projects') {
      ItemStated(user, projects, item);
      ItemStated(user', projects', item);
    }
    assert ItemsOf(user, projects) == ItemsOf(user', projects');
    AnswerOnce(env, ItemsOf(user, projects), a, b);
  }

  lemma ItemStated(user: seq<Requirement>, projects: seq<Project>, item: Item)
    ensures item in ItemsOf(user, projects) <==>
      match item { case ByUser(r) => r in user case ByProject(name, r) => States(projects, name, r) }
  {
  }

  // ---------------------------------------------------------------- the collecting loops

  datatype Deferred = LockVersion(index: nat, project: string) | ToolchainFile(root: string, project: string)

  /** A deferred read belongs to a collected item. */
  ghost predicate Belongs(env: Env, items: seq<Item>, d: Deferred) {
    match d
    case LockVersion(index, project) => index < |items| && IsLock(items[index]) && items[index].project == project
    case ToolchainFile(root, project) =>
      exists i :: 0 <= i < |items| && IsToolchain(items[i]) && ToolchainRoot(env, items[i]) == root &&
        items[i].project == project
  }

  ghost predicate AllDeferred(env: Env, items: seq<Item>, deferred: seq<Deferred>) {
    && (forall d :: d in deferred ==> Belongs(env, items, d))
    && (forall i :: 0 <= i < |items| && IsLock(items[i]) ==> LockVersion(i, items[i].project) in deferred)
    && (forall i :: 0 <= i < |items| && IsToolchain(items[i]) ==>
      ToolchainFile(ToolchainRoot(env, items[i]), items[i].project) in deferred)
  }

  ghost predicate CollectedAll(env: Env, items: seq<Item>, owned: seq<Owned>) {
    |owned| == |items| && forall i :: 0 <= i < |items| ==> owned[i] == Collected(env, items[i])
  }

  lemma DeferOneMore(env: Env, items: seq<Item>, deferred: seq<Deferred>, item: Item, more: seq<Deferred>)
    requires AllDeferred(env, items, deferred)
    requires forall d :: d in more ==> Belongs(env, items + [item], d)
    requires IsLock(item) ==> LockVersion(|items|, item.project) in more
    requires IsToolchain(item) ==> ToolchainFile(ToolchainRoot(env, item), item.project) in more
    ensures AllDeferred(env, items + [item], deferred + more)
  {
    var all := items + [item];
    forall d | d in deferred ensures Belongs(env, all, d) {
      assert Belongs(env, items, d);
      if d.ToolchainFile? {
        var i :| 0 <= i < |items| && IsToolchain(items[i]) && ToolchainRoot(env, items[i]) == d.root &&
          items[i].project == d.project;
        assert all[i] == items[i];
      }
    }
  }

  /** One tool of one project, or one of the user's. */
  method AddItem(env: Env, item: Item, owned: seq<Owned>, deferred: seq<Deferred>, ghost items: seq<Item>)
    returns (ok: bool, owned': seq<Owned>, deferred': seq<Deferred>)
    requires CollectedAll(env, items, owned) && AllDeferred(env, items, deferred)
    ensures ok <==> ItemOk(env, item)
    ensures ok ==> CollectedAll(env, items + [item], owned') && AllDeferred(env, items + [item], deferred')
  {
    owned', deferred' := owned, deferred;
    ok := ItemOk(env, item);
    if !ok {
      return;
    }
    var more := [];
    owned' := owned + [Collected(env, item)];
    if IsLock(item) {
      more := more + [LockVersion(|owned|, item.project)];
    }
    if IsToolchain(item) {
      more := more + [ToolchainFile(ToolchainRoot(env, item), item.project)];
      assert (items + [item])[|items|] == item;
    }
    DeferOneMore(env, items, deferred, item, more);
    deferred' := deferred + more;
  }

  ghost predicate Covers(items: seq<Item>, all: set<Item>) {
    forall item :: item in items <==> item in all
  }

  ghost predicate AllOk(env: Env, items: seq<Item>) {
    forall item :: item in items ==> ItemOk(env, item)
  }

  method CollectUser(env: Env, user: seq<Requirement>) returns (ok: bool, owned: seq<Owned>, ghost items: seq<Item>)
    ensures ok <==> forall r :: r in user ==> ItemOk(env, ByUser(r))
    ensures ok ==> CollectedAll(env, items, owned) && AllDeferred(env, items, []) && AllOk(env, items)
    ensures ok ==> forall item :: item in items <==> item.ByUser? && item.requirement in user
  {
    owned, items := [], [];
    for i := 0 to |user|
      invariant CollectedAll(env, items, owned) && AllDeferred(env, items, []) && AllOk(env, items)
      invariant forall item :: item in items <==> item.ByUser? && item.requirement in user[..i]
      invariant forall k :: 0 <= k < i ==> ItemOk(env, ByUser(user[k]))
    {
      var nothing: seq<Deferred> := [];
      ok, owned, nothing := AddItem(env, ByUser(user[i]), owned, [], items);
      if !ok {
        return;
      }
      ghost var none: seq<Deferred> := [];
      DeferOneMore(env, items, none, ByUser(user[i]), none);
      assert none + none == none;
      assert user[..i + 1] == user[..i] + [user[i]];
      items := items + [ByUser(user[i])];
    }
    assert user[..|user|] == user;
    ok := true;
  }

  ghost predicate Good(env: Env, items: seq<Item>, owned: seq<Owned>, deferred: seq<Deferred>) {
    CollectedAll(env, items, owned) && AllDeferred(env, items, deferred) && AllOk(env, items)
  }

  method CollectProject(env: Env, project: Project, owned0: seq<Owned>, deferred0: seq<Deferred>,
                        ghost items0: seq<Item>)
    returns (ok: bool, owned: seq<Owned>, deferred: seq<Deferred>, ghost items: seq<Item>)
    requires Good(env, items0, owned0, deferred0)
    ensures ok <==> forall r :: r in project.tools ==> ItemOk(env, ByProject(project.name, r))
    ensures ok ==> Good(env, items, owned, deferred)
    ensures ok ==> forall item :: item in items <==>
      item in items0 || (item.ByProject? && item.project == project.name && item.requirement in project.tools)
  {
    owned, deferred, items := owned0, deferred0, items0;
    for i := 0 to |project.tools|
      invariant Good(env, items, owned, deferred)
      invariant forall k :: 0 <= k < i ==> ItemOk(env, ByProject(project.name, project.tools[k]))
      invariant forall item :: item in items <==>
        item in items0 || (item.ByProject? && item.project == project.name && item.requirement in project.tools[..i])
    {
      var item := ByProject(project.name, project.tools[i]);
      ok, owned, deferred := AddItem(env, item, owned, deferred, items);
      if !ok {
        return;
      }
      assert project.tools[..i + 1] == project.tools[..i] + [project.tools[i]];
      items := items + [item];
    }
    assert project.tools[..|project.tools|] == project.tools;
    ok := true;
  }

  method CollectProjects(env: Env, projects: seq<Project>, owned0: seq<Owned>, ghost items0: seq<Item>)
    returns (ok: bool, owned: seq<Owned>, deferred: seq<Deferred>, ghost items: seq<Item>)
    requires Good(env, items0, owned0, [])
    ensures ok <==> forall name, r :: States(projects, name, r) ==> ItemOk(env, ByProject(name, r))
    ensures ok ==> Good(env, items, owned, deferred)
    ensures ok ==> forall item :: item in items <==>
      item in items0 || (item.ByProject? && States(projects, item.project, item.requirement))
  {
    owned, deferred, items := owned0, [], items0;
    for i := 0 to |projects|
      invariant Good(env, items, owned, deferred)
      invariant forall name, r :: States(projects[..i], name, r) ==> ItemOk(env, ByProject(name, r))
      invariant forall item :: item in items <==>
        item in items0 || (item.ByProject? && States(projects[..i], item.project, item.requirement))
    {
      StatesOneMore(projects, i);
      ok, owned, deferred, items := CollectProject(env, projects[i], owned, deferred, items);
      if !ok {
        ghost var r :| r in projects[i].tools && !ItemOk(env, ByProject(projects[i].name, r));
        assert States(projects, projects[i].name, r);
        return;
      }
    }
    assert projects[..|projects|] == projects;
    ok := true;
  }

  lemma StatesOneMore(projects: seq<Project>, i: nat)
    requires i < |projects|
    ensures forall name, r :: States(projects[..i + 1], name, r) <==>
      (States(projects[..i], name, r) || (name == projects[i].name && r in projects[i].tools))
  {
    var before, after := projects[..i], projects[..i + 1];
    forall name, r
      ensures States(after, name, r) <==>
        (States(before, name, r) || (name == projects[i].name && r in projects[i].tools))
    {
      assert forall k :: 0 <= k < i ==> after[k] == before[k];
      assert after[i] == projects[i];
    }
  }

  // ---------------------------------------------------------------- the deferred reads

  ghost predicate LockDone(env: Env, items: seq<Item>, owned: seq<Owned>, d: Deferred) {
    d.LockVersion? ==>
      && d.index < |items| && d.index < |owned| && ReadLock(env, d.project).Some?
      && owned[d.index] == Filled(env, items[d.index])
  }

  ghost predicate FilledUpTo(env: Env, items: seq<Item>, owned: seq<Owned>, deferred: seq<Deferred>, n: nat) {
    && n <= |deferred| && |items| <= |owned|
    && (forall i :: 0 <= i < |items| ==>
         owned[i] == Collected(env, items[i]) || (IsLock(items[i]) && owned[i] == Filled(env, items[i])))
    && (forall e :: 0 <= e < n ==> LockDone(env, items, owned, deferred[e]))
  }

  /** A requirement from the toolchain file of one of the items. */
  ghost predicate FromItem(env: Env, items: seq<Item>, o: Owned) {
    exists i :: 0 <= i < |items| && FoundFor(env, items[i]) && o == FileVersion(env, items[i])
  }

  ghost predicate FileDone(env: Env, files: seq<Owned>, d: Deferred) {
    d.ToolchainFile? ==>
      && ReadToolchain(env, d.root) != Unreadable
      && (ReadToolchain(env, d.root).Found? ==> FromFile(env, d.project, ReadToolchain(env, d.root).version) in files)
  }

  ghost predicate FilesUpTo(env: Env, items: seq<Item>, files: seq<Owned>, deferred: seq<Deferred>, n: nat,
                            skip: bool) {
    && n <= |deferred|
    && (skip ==> files == [])
    && (forall k :: 0 <= k < |files| ==> FromItem(env, items, files[k]))
    && (!skip ==> forall e :: 0 <= e < n ==> FileDone(env, files, deferred[e]))
  }

  ghost predicate DoneUpTo(env: Env, items: seq<Item>, owned: seq<Owned>, deferred: seq<Deferred>, n: nat, skip: bool) {
    FilledUpTo(env, items, owned, deferred, n) && FilesUpTo(env, items, owned[|items|..], deferred, n, skip)
  }

  lemma FilledIsWithVersion(env: Env, item: Item, o: Owned)
    requires IsLock(item) && ReadLock(env, item.project).Some?
    requires o == Collected(env, item) || o == Filled(env, item)
    ensures WithVersion(o, ReadLock(env, item.project).value) == Filled(env, item)
  {
  }

  lemma LockStep(env: Env, items: seq<Item>, owned: seq<Owned>, deferred: seq<Deferred>, e: nat, skip: bool,
                 owned': seq<Owned>)
    requires DoneUpTo(env, items, owned, deferred, e, skip) && e < |deferred| && Belongs(env, items, deferred[e])
    requires deferred[e].LockVersion? && ReadLock(env, deferred[e].project).Some?
    requires owned' == owned[deferred[e].index := Filled(env, items[deferred[e].index])]
    ensures DoneUpTo(env, items, owned', deferred, e + 1, skip)
  {
    assert owned'[|items|..] == owned[|items|..];
    forall k | 0 <= k < e + 1 ensures LockDone(env, items, owned', deferred[k]) {
      assert k < e ==> LockDone(env, items, owned, deferred[k]);
    }
  }

  lemma NoFileStep(env: Env, items: seq<Item>, owned: seq<Owned>, deferred: seq<Deferred>, e: nat, skip: bool)
    requires DoneUpTo(env, items, owned, deferred, e, skip) && e < |deferred| && deferred[e].ToolchainFile?
    requires skip || ReadToolchain(env, deferred[e].root) == Missing
    ensures DoneUpTo(env, items, owned, deferred, e + 1, skip)
  {
  }

  lemma DeferredFromItem(env: Env, items: seq<Item>, d: Deferred, o: Owned)
    requires Belongs(env, items, d) && d.ToolchainFile? && ReadToolchain(env, d.root).Found?
    requires o == FromFile(env, d.project, ReadToolchain(env, d.root).version)
    ensures FromItem(env, items, o)
  {
    var i :| 0 <= i < |items| && IsToolchain(items[i]) && ToolchainRoot(env, items[i]) == d.root &&
      items[i].project == d.project;
    assert FoundFor(env, items[i]);
  }

  lemma FileStep(env: Env, items: seq<Item>, owned: seq<Owned>, deferred: seq<Deferred>, e: nat, o: Owned)
    requires DoneUpTo(env, items, owned, deferred, e, false) && e < |deferred| && Belongs(env, items, deferred[e])
    requires deferred[e].ToolchainFile? && ReadToolchain(env, deferred[e].root).Found?
    requires o == FromFile(env, deferred[e].project, ReadToolchain(env, deferred[e].root).version)
    ensures DoneUpTo(env, items, owned + [o], deferred, e + 1, false)
  {
    assert (owned + [o])[|items|..] == owned[|items|..] + [o];
    DeferredFromItem(env, items, deferred[e], o);
    OneMoreFile(env, items, owned[|items|..], deferred, e, o);
    FilledStays(env, items, owned, deferred, e, o);
  }

  lemma OneMoreFile(env: Env, items: seq<Item>, files: seq<Owned>, deferred: seq<Deferred>, e: nat, o: Owned)
    requires FilesUpTo(env, items, files, deferred, e, false) && e < |deferred| && FromItem(env, items, o)
    requires FileDone(env, [o], deferred[e])
    ensures FilesUpTo(env, items, files + [o], deferred, e + 1, false)
  {
    forall k | 0 <= k < e ensures FileDone(env, files + [o], deferred[k]) {
      assert FileDone(env, files, deferred[k]);
    }
  }

  lemma FilledStays(env: Env, items: seq<Item>, owned: seq<Owned>, deferred: seq<Deferred>, e: nat, o: Owned)
    requires FilledUpTo(env, items, owned, deferred, e) && e < |deferred| && deferred[e].ToolchainFile?
    ensures FilledUpTo(env, items, owned + [o], deferred, e + 1)
  {
    forall k | 0 <= k < e ensures LockDone(env, items, owned + [o], deferred[k]) {
      assert LockDone(env, items, owned, deferred[k]);
    }
  }

  /** Why a deferred read stops the merge. */
  predicate Stops(env: Env, d: Deferred, skip: bool) {
    match d
    case LockVersion(_, project) => ReadLock(env, project).None?
    case ToolchainFile(root, _) => !skip && ReadToolchain(env, root) == Unreadable
  }

  function AfterRead(env: Env, d: Deferred, owned: seq<Owned>, skip: bool): seq<Owned>
    requires !Stops(env, d, skip) && (d.LockVersion? ==> d.index < |owned|)
  {
    match d
    case LockVersion(index, project) => owned[index := WithVersion(owned[index], ReadLock(env, project).value)]
    case ToolchainFile(root, project) =>
      if skip || ReadToolchain(env, root) == Missing then owned
      else owned + [FromFile(env, project, ReadToolchain(env, root).version)]
  }

  method ReadDeferred(env: Env, d: Deferred, owned: seq<Owned>, skip: bool) returns (ok: bool, owned': seq<Owned>)
    requires d.LockVersion? ==> d.index < |owned|
    ensures ok <==> !Stops(env, d, skip)
    ensures ok ==> owned' == AfterRead(env, d, owned, skip)
  {
    owned', ok := owned, true;
    match d {
      case LockVersion(index, project) =>
        var version := ReadLock(env, project);
        if version.None? {
          return false, owned;
        }
        owned' := owned[index := WithVersion(owned[index], version.value)];
      case ToolchainFile(root, project) =>
        if skip {
          return;
        }
        var read := ReadToolchain(env, root);
        if read == Unreadable {
          return false, owned;
        }
        if read.Found? {
          owned' := owned + [FromFile(env, project, read.version)];
        }
    }
  }

  lemma ReadStep(env: Env, items: seq<Item>, owned: seq<Owned>, deferred: seq<Deferred>, e: nat, skip: bool,
                 owned': seq<Owned>)
    requires DoneUpTo(env, items, owned, deferred, e, skip) && e < |deferred| && Belongs(env, items, deferred[e])
    requires !Stops(env, deferred[e], skip)
    requires owned' == AfterRead(env, deferred[e], owned, skip)
    ensures DoneUpTo(env, items, owned', deferred, e + 1, skip)
  {
    if deferred[e].LockVersion? {
      FilledIsWithVersion(env, items[deferred[e].index], owned[deferred[e].index]);
      LockStep(env, items, owned, deferred, e, skip, owned');
    } else if skip || ReadToolchain(env, deferred[e].root) == Missing {
      NoFileStep(env, items, owned, deferred, e, skip);
    } else {
      FileStep(env, items, owned, deferred, e,
        FromFile(env, deferred[e].project, ReadToolchain(env, deferred[e].root).version));
    }
  }

  lemma NothingDone(env: Env, items: seq<Item>, owned: seq<Owned>, deferred: seq<Deferred>, skip: bool)
    requires CollectedAll(env, items, owned)
    ensures DoneUpTo(env, items, owned, deferred, 0, skip)
  {
  }

  method ResolveDeferred(env: Env, collected: seq<Owned>, deferred: seq<Deferred>, skip: bool, ghost items: seq<Item>)
    returns (ok: bool, owned: seq<Owned>, ghost failed: nat)
    requires CollectedAll(env, items, collected) && AllDeferred(env, items, deferred)
    ensures ok ==> DoneUpTo(env, items, owned, deferred, |deferred|, skip)
    ensures !ok ==> failed < |deferred| && Stops(env, deferred[failed], skip)
  {
    owned, failed := collected, 0;
    NothingDone(env, items, collected, deferred, skip);
    for e := 0 to |deferred|
      invariant DoneUpTo(env, items, owned, deferred, e, skip)
    {
      assert deferred[e] in deferred;
      var owned';
      ok, owned' := ReadDeferred(env, deferred[e], owned, skip);
      if !ok {
        failed := e;
        return;
      }
      ReadStep(env, items, owned, deferred, e, skip, owned');
      owned := owned';
    }
    ok := true;
  }

  lemma ItemFilled(env: Env, items: seq<Item>, owned: seq<Owned>, deferred: seq<Deferred>, i: nat)
    requires AllDeferred(env, items, deferred) && FilledUpTo(env, items, owned, deferred, |deferred|) && i < |items|
    ensures owned[i] == Filled(env, items[i]) && (IsLock(items[i]) ==> ReadLock(env, items[i].project).Some?)
  {
    if IsLock(items[i]) {
      var d := LockVersion(i, items[i].project);
      assert d in deferred;
      var e :| 0 <= e < |deferred| && deferred[e] == d;
      assert LockDone(env, items, owned, deferred[e]);
    }
  }

  lemma ItemFileRead(env: Env, items: seq<Item>, files: seq<Owned>, deferred: seq<Deferred>, i: nat)
    requires AllDeferred(env, items, deferred) && FilesUpTo(env, items, files, deferred, |deferred|, false)
    requires i < |items| && IsToolchain(items[i])
    ensures ReadToolchain(env, ToolchainRoot(env, items[i])) != Unreadable
    ensures FoundFor(env, items[i]) ==> FileVersion(env, items[i]) in files
  {
    var d := ToolchainFile(ToolchainRoot(env, items[i]), items[i].project);
    assert d in deferred;
    var e :| 0 <= e < |deferred| && deferred[e] == d;
    assert FileDone(env, files, deferred[e]);
  }

  lemma AllRead(env: Env, items: seq<Item>, owned: seq<Owned>, deferred: seq<Deferred>, all: set<Item>)
    requires AllDeferred(env, items, deferred) && AllOk(env, items) && Covers(items, all)
    requires DoneUpTo(env, items, owned, deferred, |deferred|, ToolchainStated(all))
    ensures Readable(env, all)
  {
    forall item | item in all && IsLock(item) ensures ReadLock(env, item.project).Some? {
      assert item in items;
      var i :| 0 <= i < |items| && items[i] == item;
      ItemFilled(env, items, owned, deferred, i);
    }
    if !ToolchainStated(all) {
      forall item | item in all && IsToolchain(item)
        ensures ReadToolchain(env, ToolchainRoot(env, item)) != Unreadable
      {
        assert item in items;
        var i :| 0 <= i < |items| && items[i] == item;
        ItemFileRead(env, items, owned[|items|..], deferred, i);
      }
    }
  }

  ghost function FilledSet(env: Env, all: set<Item>): set<Owned> {
    set item | item in all :: Filled(env, item)
  }

  ghost function FileSet(env: Env, all: set<Item>): set<Owned> {
    set item | item in all && FoundFor(env, item) :: FileVersion(env, item)
  }

  lemma FilledParts(env: Env, items: seq<Item>, owned: seq<Owned>, deferred: seq<Deferred>, all: set<Item>, o: Owned)
    requires AllDeferred(env, items, deferred) && Covers(items, all)
    requires FilledUpTo(env, items, owned, deferred, |deferred|)
    ensures o in owned[..|items|] <==> o in FilledSet(env, all)
  {
    if o in owned[..|items|] {
      var i :| 0 <= i < |items| && owned[i] == o;
      ItemFilled(env, items, owned, deferred, i);
      assert items[i] in all;
    }
    if o in FilledSet(env, all) {
      var item :| item in all && Filled(env, item) == o;
      assert item in items;
      var i :| 0 <= i < |items| && items[i] == item;
      ItemFilled(env, items, owned, deferred, i);
      assert owned[..|items|][i] == o;
    }
  }

  lemma FileParts(env: Env, items: seq<Item>, files: seq<Owned>, deferred: seq<Deferred>, all: set<Item>, o: Owned)
    requires AllDeferred(env, items, deferred) && Covers(items, all)
    requires FilesUpTo(env, items, files, deferred, |deferred|, false)
    ensures o in files <==> o in FileSet(env, all)
  {
    if o in files {
      var k :| 0 <= k < |files| && files[k] == o;
      assert FromItem(env, items, files[k]);
      var i :| 0 <= i < |items| && FoundFor(env, items[i]) && o == FileVersion(env, items[i]);
      assert items[i] in all;
    }
    if o in FileSet(env, all) {
      var item :| item in all && FoundFor(env, item) && FileVersion(env, item) == o;
      assert item in items;
      var i :| 0 <= i < |items| && items[i] == item;
      ItemFileRead(env, items, files, deferred, i);
    }
  }

  lemma AllOwnedParts(env: Env, all: set<Item>)
    ensures AllOwned(env, all) == FilledSet(env, all) + (if ToolchainStated(all) then {} else FileSet(env, all))
  {
  }

  lemma OwnedIsAll(env: Env, items: seq<Item>, owned: seq<Owned>, deferred: seq<Deferred>, all: set<Item>)
    requires AllDeferred(env, items, deferred) && Covers(items, all)
    requires DoneUpTo(env, items, owned, deferred, |deferred|, ToolchainStated(all))
    ensures SetOf(owned) == AllOwned(env, all)
  {
    var files := owned[|items|..];
    assert owned == owned[..|items|] + files;
    AllOwnedParts(env, all);
    forall o ensures o in SetOf(owned) <==> o in AllOwned(env, all) {
      FilledParts(env, items, owned, deferred, all, o);
      if !ToolchainStated(all) {
        FileParts(env, items, files, deferred, all, o);
      }
    }
  }

  lemma StoppedIsUnreadable(env: Env, items: seq<Item>, d: Deferred, all: set<Item>)
    requires Belongs(env, items, d) && Covers(items, all) && Stops(env, d, ToolchainStated(all))
    ensures !Readable(env, all)
  {
    if d.LockVersion? {
      assert items[d.index] in all;
    } else {
      var i :| 0 <= i < |items| && IsToolchain(items[i]) && ToolchainRoot(env, items[i]) == d.root &&
        items[i].project == d.project;
      assert items[i] in all;
    }
  }

  method ExplicitTools(owned: seq<Owned>) returns (tools: set<string>)
    ensures forall tool :: tool in tools <==>
      exists k :: 0 <= k < |owned| && owned[k].requirement.source != LOCK && HasValue(owned[k]) &&
        Identity(owned[k]) == tool
  {
    tools := {};
    for i := 0 to |owned|
      invariant forall tool :: tool in tools <==>
        exists k :: 0 <= k < i && owned[k].requirement.source != LOCK && HasValue(owned[k]) &&
          Identity(owned[k]) == tool
    {
      if owned[i].requirement.source != LOCK && HasValue(owned[i]) {
        tools := tools + {Identity(owned[i])};
      }
    }
  }

  lemma StatedAmong(env: Env, items: seq<Item>, owned: seq<Owned>, all: set<Item>)
    requires CollectedAll(env, items, owned) && Covers(items, all)
    ensures ToolchainStated(all) <==>
      exists k :: 0 <= k < |owned| && owned[k].requirement.source != LOCK && HasValue(owned[k]) &&
        Identity(owned[k]) == Lower(TOOLCHAIN)
  {
    if ToolchainStated(all) {
      var item :| item in all && StatesToolchain(item);
      assert item in items;
      var k :| 0 <= k < |items| && items[k] == item;
      assert owned[k] == Collected(env, item);
    }
    if k :| 0 <= k < |owned| && owned[k].requirement.source != LOCK && HasValue(owned[k]) &&
            Identity(owned[k]) == Lower(TOOLCHAIN) {
      assert items[k] in all && StatesToolchain(items[k]);
    }
  }

  /** mergeProjectToolVersions. */
  method MergeToolVersions(env: Env, user: seq<Requirement>, projects: seq<Project>)
    returns (result: Result<seq<Resolved>, MergeError>)
    ensures IsAnswer(env, ItemsOf(user, projects), result)
  {
    ghost var all := ItemsOf(user, projects);
    var collected, owned, deferred;
    ghost var items;
    var ok;
    ok, collected, deferred, items := CollectItems(env, user, projects);
    if !ok {
      return Err(BadInput);
    }
    var explicitTools := ExplicitTools(collected);
    StatedAmong(env, items, collected, all);
    ghost var failed;
    ok, owned, failed := ResolveDeferred(env, collected, deferred, Lower(TOOLCHAIN) in explicitTools, items);
    if !ok {
      assert deferred[failed] in deferred;
      StoppedIsUnreadable(env, items, deferred[failed], all);
      return Err(BadInput);
    }
    AllRead(env, items, owned, deferred, all);
    OwnedIsAll(env, items, owned, deferred, all);
    ok := CheckOwned(owned, env.names);
    if !ok {
      return Err(BadInput);
    }
    var merged := MergeOwned(owned);
    result := ResolveAll(merged, SetOf(owned), env.names);
  }

  method CollectItems(env: Env, user: seq<Requirement>, projects: seq<Project>)
    returns (ok: bool, owned: seq<Owned>, deferred: seq<Deferred>, ghost items: seq<Item>)
    ensures ok <==> forall item :: item in ItemsOf(user, projects) ==> ItemOk(env, item)
    ensures ok ==> Good(env, items, owned, deferred) && Covers(items, ItemsOf(user, projects))
  {
    deferred := [];
    ok, owned, items := CollectUser(env, user);
    if !ok {
      ghost var r :| r in user && !ItemOk(env, ByUser(r));
      assert ByUser(r) in ItemsOf(user, projects);
      return;
    }
    ok, owned, deferred, items := CollectProjects(env, projects, owned, items);
    forall item ensures item in ItemsOf(user, projects) <==>
      match item { case ByUser(r) => r in user case ByProject(name, r) => States(projects, name, r) }
    {
      ItemStated(user, projects, item);
    }
    if !ok {
      ghost var name, r :| States(projects, name, r) && !ItemOk(env, ByProject(name, r));
      assert ByProject(name, r) in ItemsOf(user, projects);
    }
  }

  // ---------------------------------------------------------------- the plan's own validator

  predicate OwnerOk(owner: string) {
    owner != "" && |TerminalText.Encode(owner)| <= 256 && '\r' !in owner && '\n' !in owner && '\0' !in owner
  }

  predicate ToolOk(t: Resolved, names: map<string, string>) {
    && Lower(t.tool) in names && t.tool == names[Lower(t.tool)]
    && (t.version != "" ==> ToolValue(t.version)) && (t.series != "" ==> ToolValue(t.series))
    && t.source in [EXPLICIT, SELECTED, PROJECT_FILE, DEFAULT]
    && 0 < |t.owners| <= 32
  }

  /** An entry of a valid plan, and an owner: bounded, of one line, and from one of four sources. */
  lemma ToolOkIff(t: Resolved, names: map<string, string>, owner: string)
    ensures ToolOk(t, names) <==>
      && Lower(t.tool) in names && names[Lower(t.tool)] == t.tool
      && (t.version == "" || ToolValue(t.version)) && (t.series == "" || ToolValue(t.series))
      && (t.source == EXPLICIT || t.source == SELECTED || t.source == PROJECT_FILE || t.source == DEFAULT)
      && t.owners != [] && |t.owners| < 33
    ensures OwnerOk(owner) <==>
      && 0 < |owner| && |TerminalText.Encode(owner)| < 257
      && forall c :: c in owner ==> c != '\r' && c != '\n' && c != '\0'
  {
  }

  ghost predicate PlanValid(plan: seq<Resolved>, names: map<string, string>) {
    |plan| <= 64 && ToolsOk(plan, names)
  }

  ghost predicate ToolsOk(plan: seq<Resolved>, names: map<string, string>) {
    StrictlySorted(PlanIdentities(plan)) && EntriesOk(plan, names)
  }

  ghost predicate EntriesOk(plan: seq<Resolved>, names: map<string, string>) {
    forall k :: 0 <= k < |plan| ==> ToolOk(plan[k], names) && OwnersOk(plan[k].owners)
  }

  ghost predicate OwnersOk(owners: seq<string>) {
    StrictlySorted(owners) && EachOwnerOk(owners)
  }

  lemma SortedOneMore(s: seq<string>, x: string)
    ensures StrictlySorted(s + [x]) <==> StrictlySorted(s) && (s != [] ==> Less(s[|s| - 1], x))
  {
    var all := s + [x];
    if StrictlySorted(all) {
      forall i, j | 0 <= i < j < |s| ensures Less(s[i], s[j]) {
        assert Less(all[i], all[j]);
      }
      assert s != [] ==> Less(all[|s| - 1], all[|s|]);
    } else if StrictlySorted(s) && (s != [] ==> Less(s[|s| - 1], x)) {
      forall i, j | 0 <= i < j < |all| ensures Less(all[i], all[j]) {
        if j == |s| && i < |s| - 1 {
          LessTransitive(s[i], s[|s| - 1], x);
        }
      }
    }
  }

  /** The comparison with the last element decides whether a prefix stays sorted. */
  lemma SortedStep(s: seq<string>, j: nat)
    requires j < |s| && StrictlySorted(s[..j])
    ensures StrictlySorted(s[..j + 1]) <==> j == 0 || Less(s[j - 1], s[j])
    ensures !StrictlySorted(s[..j + 1]) ==> !StrictlySorted(s)
  {
    assert s[..j + 1] == s[..j] + [s[j]];
    SortedOneMore(s[..j], s[j]);
  }

  method OwnerAllowed(owner: string, lastOwner: string) returns (ok: bool)
    ensures ok <==> OwnerOk(owner) && (lastOwner == "" || Less(lastOwner, owner))
  {
    ok := OwnerOk(owner) && (lastOwner == "" || Less(lastOwner, owner));
  }

  lemma OwnersStep(owners: seq<string>, j: nat, lastOwner: string)
    requires j < |owners| && OwnersOk(owners[..j]) && lastOwner == (if j == 0 then "" else owners[j - 1])
    ensures OwnersOk(owners[..j + 1]) <==> OwnerOk(owners[j]) && (lastOwner == "" || Less(lastOwner, owners[j]))
    ensures !OwnersOk(owners[..j + 1]) ==> !OwnersOk(owners)
  {
    SortedStep(owners, j);
    EachOwnerStep(owners, j);
  }

  ghost predicate EachOwnerOk(owners: seq<string>) {
    forall j :: 0 <= j < |owners| ==> OwnerOk(owners[j])
  }

  lemma EachOwnerStep(owners: seq<string>, j: nat)
    requires j < |owners| && EachOwnerOk(owners[..j])
    ensures EachOwnerOk(owners[..j + 1]) <==> OwnerOk(owners[j])
    ensures !EachOwnerOk(owners[..j + 1]) ==> !EachOwnerOk(owners)
    ensures j > 0 ==> OwnerOk(owners[j - 1])
  {
    var before, after := owners[..j], owners[..j + 1];
    assert after[j] == owners[j] && forall i :: 0 <= i < j ==> after[i] == before[i] == owners[i];
  }

  method ValidateOwners(owners: seq<string>) returns (ok: bool)
    ensures ok <==> OwnersOk(owners)
  {
    var lastOwner := "";
    for j := 0 to |owners|
      invariant OwnersOk(owners[..j]) && lastOwner == if j == 0 then "" else owners[j - 1]
    {
      OwnersStep(owners, j, lastOwner);
      ok := OwnerAllowed(owners[j], lastOwner);
      if !ok {
        return;
      }
      lastOwner := owners[j];
    }
    assert owners[..|owners|] == owners;
    ok := true;
  }

  lemma EntriesStep(plan: seq<Resolved>, names: map<string, string>, k: nat)
    requires k < |plan| && EntriesOk(plan[..k], names)
    ensures EntriesOk(plan[..k + 1], names) <==> ToolOk(plan[k], names) && OwnersOk(plan[k].owners)
    ensures !EntriesOk(plan[..k + 1], names) ==> !EntriesOk(plan, names)
    ensures k > 0 ==> ToolOk(plan[k - 1], names)
  {
    var before, after := plan[..k], plan[..k + 1];
    assert after[k] == plan[k] && forall i :: 0 <= i < k ==> after[i] == before[i] == plan[i];
  }

  lemma IdentitiesStep(plan: seq<Resolved>, k: nat)
    requires k < |plan| && StrictlySorted(PlanIdentities(plan[..k]))
    ensures StrictlySorted(PlanIdentities(plan[..k + 1])) <==>
      k == 0 || Less(Lower(plan[k - 1].tool), Lower(plan[k].tool))
    ensures !StrictlySorted(PlanIdentities(plan[..k + 1])) ==> !StrictlySorted(PlanIdentities(plan))
  {
    assert PlanIdentities(plan)[..k] == PlanIdentities(plan[..k]);
    assert PlanIdentities(plan)[..k + 1] == PlanIdentities(plan[..k + 1]);
    SortedStep(PlanIdentities(plan), k);
  }

  lemma ToolsStep(plan: seq<Resolved>, names: map<string, string>, k: nat, previous: string)
    requires WellFormedTable(names) && k < |plan| && ToolsOk(plan[..k], names)
    requires previous == if k == 0 then "" else Lower(plan[k - 1].tool)
    ensures ToolsOk(plan[..k + 1], names) <==>
      ToolOk(plan[k], names) && (previous == "" || Less(previous, Lower(plan[k].tool))) && OwnersOk(plan[k].owners)
    ensures !ToolsOk(plan[..k + 1], names) ==> !ToolsOk(plan, names)
  {
    IdentitiesStep(plan, k);
    EntriesStep(plan, names, k);
  }

  method ToolAllowed(t: Resolved, names: map<string, string>, previous: string) returns (ok: bool)
    ensures ok <==> ToolOk(t, names) && (previous == "" || Less(previous, Lower(t.tool))) && OwnersOk(t.owners)
  {
    ok := ToolOk(t, names) && (previous == "" || Less(previous, Lower(t.tool)));
    if ok {
      ok := ValidateOwners(t.owners);
    }
  }

  /** validateResolvedToolVersionPlan. */
  method ValidatePlan(plan: seq<Resolved>, names: map<string, string>) returns (ok: bool)
    requires WellFormedTable(names)
    ensures ok <==> PlanValid(plan, names)
  {
    if |plan| > 64 {
      return false;
    }
    var previous := "";
    for k := 0 to |plan|
      invariant ToolsOk(plan[..k], names) && previous == if k == 0 then "" else Lower(plan[k - 1].tool)
    {
      ToolsStep(plan, names, k, previous);
      ok := ToolAllowed(plan[k], names, previous);
      if !ok {
        return;
      }
      previous := Lower(plan[k].tool);
    }
    assert plan[..|plan|] == plan;
    ok := true;
  }

  // ---------------------------------------------------------------- every merged plan passes it

  lemma {:induction false} SplitAtDot(text: string)
    requires |SplitDots(text)| >= 2
    ensures SplitDots(text)[0] + "." <= text
    ensures SplitDots(text[|SplitDots(text)[0]| + 1..]) == SplitDots(text)[1..]
  {
    if text[0] != '.' {
      SplitAtDot(text[1..]);
      var first := SplitDots(text[1..])[0];
      assert first + "." == text[1..][..|first| + 1];
      assert text[1..][|first| + 1..] == text[|first| + 2..];
    } else {
      assert text[1..] == text[|SplitDots(text)[0]| + 1..];
    }
  }

  lemma SplitOnce(text: string) returns (after: string)
    requires |SplitDots(text)| >= 2
    ensures text == SplitDots(text)[0] + "." + after && SplitDots(after) == SplitDots(text)[1..]
  {
    SplitAtDot(text);
    after := text[|SplitDots(text)[0]| + 1..];
  }

  lemma Regroup(first: string, second: string, rest: string)
    ensures first + "." + (second + "." + rest) == first + "." + second + ("." + rest)
    ensures '.' in first + "." + second
  {
    assert (first + "." + second)[|first|] == '.';
  }

  lemma SeriesPrefix(version: string) returns (rest: string)
    requires |SplitDots(version)| >= 3
    ensures version == PythonSeries(version) + ("." + rest)
    ensures '.' in PythonSeries(version)
  {
    var after := SplitOnce(version);
    rest := SplitOnce(after);
    Regroup(SplitDots(version)[0], SplitDots(after)[0], rest);
  }

  lemma PrefixIsToolValue(version: string, prefix: string, rest: string)
    requires ToolValue(version) && version == prefix + rest && prefix != ""
    ensures ToolValue(prefix)
  {
    assert forall k :: 0 <= k < |prefix| ==> prefix[k] == version[k];
  }

  /** The series of a Python version is a proper prefix of it, and as well formed. */
  lemma PythonSeriesOk(version: string)
    requires ToolValue(version) && |SplitDots(version)| >= 3
    ensures ToolValue(PythonSeries(version)) && PythonSeries(version) < version
  {
    var rest := SeriesPrefix(version);
    PrefixIsToolValue(version, PythonSeries(version), "." + rest);
  }

  lemma ValuesOk(owned: set<Owned>, names: map<string, string>, identity: string, layer: Layer)
    requires AllValid(owned, names)
    ensures forall v :: v in Versions(owned, identity, layer) ==> ToolValue(v)
    ensures forall v :: v in Series(owned, identity, layer) ==> ToolValue(v)
  {
    forall v | v in Versions(owned, identity, layer) ensures ToolValue(v) {
      var o :| o in owned && Identity(o) == identity && LayerOf(o) == layer && v in VersionOf(o);
      assert Valid(o, names);
    }
    forall v | v in Series(owned, identity, layer) ensures ToolValue(v) {
      var o :| o in owned && Identity(o) == identity && LayerOf(o) == layer && v in SeriesOf(o);
      SeriesValueOk(o, names, v);
    }
  }

  lemma SeriesValueOk(o: Owned, names: map<string, string>, v: string)
    requires Valid(o, names) && v in SeriesOf(o)
    ensures ToolValue(v)
  {
    if v != o.requirement.series || o.requirement.series == "" {
      PythonSeriesOk(o.requirement.version);
    }
  }

  lemma ResolvedToolOk(owned: set<Owned>, names: map<string, string>, t: Resolved)
    requires AllValid(owned, names) && Resolves(owned, Lower(t.tool), t) && Lower(t.tool) in Identities(owned)
    ensures |t.owners| > 0 && (ToolOk(t, names) <==> |t.owners| <= 32)
  {
    var identity := Lower(t.tool);
    var o :| o in owned && Identity(o) == identity;
    assert o.owner in Owners(owned, identity);
    assert o.owner in t.owners;
    ValuesOk(owned, names, identity, Winner(owned, identity));
    var p :| p in owned && p.requirement.tool == t.tool;
    assert Valid(p, names);
  }

  lemma {:induction false} SortedFits(s: seq<string>, elements: set<string>)
    requires StrictlySorted(s) && forall x :: x in s ==> x in elements
    ensures |s| <= |elements|
  {
    if s != [] {
      assert s[0] in elements;
      forall x | x in s[1..] ensures x in elements - {s[0]} {
        HeadOnce(s, x);
      }
      SortedFits(s[1..], elements - {s[0]});
    }
  }

  /** Every successful merge passes the plan's validator, unless a tool has more than 32 owners or an owner's text is
      too long or not a single line. */
  lemma MergedPlanValidIff(owned: set<Owned>, names: map<string, string>, plan: seq<Resolved>)
    requires WellFormedTable(names) && IsMerged(owned, names, Ok(plan))
    ensures PlanValid(plan, names) <==>
      forall k :: 0 <= k < |plan| ==> |plan[k].owners| <= 32 && forall j :: 0 <= j < |plan[k].owners| ==>
        OwnerOk(plan[k].owners[j])
  {
    var identities := PlanIdentities(plan);
    forall k | 0 <= k < |plan|
      ensures (ToolOk(plan[k], names) <==> |plan[k].owners| <= 32) && identities[k] in names
      ensures StrictlySorted(plan[k].owners)
    {
      assert identities[k] in identities;
      ResolvedToolOk(owned, names, plan[k]);
    }
    SortedFits(identities, names.Keys);
  }

  /** The table the program uses. */
  lemma ToolNamesWellFormed()
    ensures WellFormedTable(NameTable(TOOL_NAMES))
  {
    assert forall k :: 0 <= k < |TOOL_NAMES| ==> |TOOL_NAMES[k]| > 0;
  }
}
