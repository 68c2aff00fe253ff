/** How a running Sandbox's launch configuration is compared with the expected one (config_difference.go). */
module LaunchDifference {
  import opened Common
  import opened CaseFold
  import opened LaunchCommand
  import opened TerminalText
  import Ordering
  import PathMapping

  datatype Folder = Folder(host: string, guest: string, readOnly: bool)

  datatype Configuration = Configuration(
    vGPU: string, networking: string, audioInput: string, videoInput: string, protectedClient: string,
    printerRedirection: string, clipboardRedirection: string, memory: int, folders: seq<Folder>, command: string)

  datatype Part = Memory | AudioOutput | AudioInput | Cache | Worktrees | Models | Mounts | Workspaces | Contract

  /** What the user is shown. */
  function LabelOf(part: Part): string {
    match part
    case Memory => "memory"
    case AudioOutput => "audio output"
    case AudioInput => "audio input"
    case Cache => "cache"
    case Worktrees => "worktree directory"
    case Models => "models directory"
    case Mounts => "folder mounts"
    case Workspaces => "workspaces"
    case Contract => "launch contract"
  }

  /** Reading and writing the XML form. */
  datatype Codec = Codec(decode: string -> Option<Configuration>, encode: Configuration -> string)

  ghost predicate Faithful(codec: Codec) {
    forall c :: codec.decode(codec.encode(c)) == Some(c)
  }

  // ---------------------------------------------------------------- indexing

  function Text(path: seq<string>): string {
    Join(path, "\\")
  }

  const MOUNTS_PREFIX := "C:\\Mounts\\"
  const WORKSPACES_PREFIX := "C:\\Workspaces\\"

  function KnownFolders(): seq<string> {
    [Lower(Text(PathMapping.INPUT)), Lower(Text(PathMapping.STATUS)), Lower(Text(PathMapping.CACHE)),
     Lower(Text(PathMapping.MODELS)), Lower(Text(PathMapping.WORKTREES))]
  }

  predicate Known(identity: string) {
    identity in KnownFolders() || Lower(MOUNTS_PREFIX) <= identity || Lower(WORKSPACES_PREFIX) <= identity
  }

  function Trim(text: string): string {
    TrimRight(TrimLeft(text))
  }

  function Identity(folder: Folder): string {
    Lower(Trim(folder.guest))
  }

  /** The key under which a folder is filed next to those already filed. */
  function Key(filed: map<string, Folder>, folder: Folder): string {
    var identity := if Identity(folder) == "" then "<empty-" + Decimal(|filed|) + ">" else Identity(folder);
    if identity in filed then "<duplicate-" + Decimal(|filed|) + ">" else identity
  }

  function Indexed(folders: seq<Folder>): map<string, Folder> {
    if folders == [] then map[]
    else
      var filed := Indexed(folders[..|folders| - 1]);
      filed[Key(filed, folders[|folders| - 1]) := folders[|folders| - 1]]
  }

  method IndexMappings(folders: seq<Folder>) returns (filed: map<string, Folder>)
    ensures filed == Indexed(folders)
  {
    filed := map[];
    for i := 0 to |folders|
      invariant filed == Indexed(folders[..i])
    {
      var identity := Lower(Trim(folders[i].guest));
      if identity == "" {
        identity := "<empty-" + Decimal(|filed|) + ">";
      }
      if identity in filed {
        identity := "<duplicate-" + Decimal(|filed|) + ">";
      }
      filed := filed[identity := folders[i]];
      assert folders[..i + 1][..i] == folders[..i];
    }
    assert folders[..|folders|] == folders;
  }

  // ---------------------------------------------------------------- the differences

  predicate SameFolder(left: Folder, right: Folder) {
    Lower(left.host) == Lower(right.host) && Lower(left.guest) == Lower(right.guest) && left.readOnly == right.readOnly
  }

  /** A folder looked up by its key, or the zero value. */
  function At(filed: map<string, Folder>, key: string): Folder {
    if key in filed then filed[key] else Folder("", "", false)
  }

  function Group(filed: map<string, Folder>, prefix: string): map<string, Folder> {
    map key | key in filed && prefix <= key :: filed[key]
  }

  predicate SameGroup(left: map<string, Folder>, right: map<string, Folder>, prefix: string) {
    |Group(left, prefix)| == |Group(right, prefix)| &&
    forall key :: key in Group(left, prefix) ==> SameFolder(left[key], At(Group(right, prefix), key))
  }

  predicate SameAt(left: map<string, Folder>, right: map<string, Folder>, path: seq<string>) {
    SameFolder(At(left, Lower(Text(path))), At(right, Lower(Text(path))))
  }

  predicate HasUnexpected(filed: map<string, Folder>) {
    exists key :: key in filed && !Known(key)
  }

  predicate SameStaticContract(left: Configuration, right: Configuration) {
    left.vGPU == right.vGPU && left.networking == right.networking && left.videoInput == right.videoInput &&
    left.protectedClient == right.protectedClient && left.printerRedirection == right.printerRedirection &&
    left.clipboardRedirection == right.clipboardRedirection
  }

  predicate SelectionDiffers(actual: string, expected: string, parameter: string) {
    var selection := AudioSelection(expected, parameter);
    selection.Some? && AudioSelection(actual, parameter) != selection
  }

  function If(condition: bool, part: Part): seq<Part> {
    if condition then [part] else []
  }

  predicate AudioInputDiffers(actual: Configuration, expected: Configuration) {
    actual.audioInput != expected.audioInput || SelectionDiffers(actual.command, expected.command, INPUT)
  }

  /** Everything that has no label of its own. */
  predicate ContractDiffers(actual: Configuration, expected: Configuration, left: map<string, Folder>,
                            right: map<string, Folder>) {
    OtherDiffers(actual, expected, left, right) || Normalised(actual.command) != Normalised(expected.command)
  }

  predicate OtherDiffers(actual: Configuration, expected: Configuration, left: map<string, Folder>,
                         right: map<string, Folder>) {
    || !SameStaticContract(actual, expected)
    || !SameAt(left, right, PathMapping.INPUT) || !SameAt(left, right, PathMapping.STATUS)
    || HasUnexpected(left) || HasUnexpected(right)
  }

  /** The labels of the comparisons that fail, in the order they are made. */
  function Labelled(memory: bool, audioOutput: bool, audioInput: bool, cache: bool, worktrees: bool, models: bool,
    mounts: bool, workspaces: bool, contract: bool): seq<Part>
  {
    [] + If(memory, Memory) + If(audioOutput, AudioOutput) + If(audioInput, AudioInput) + If(cache, Cache) +
    If(worktrees, Worktrees) + If(models, Models) + If(mounts, Mounts) + If(workspaces, Workspaces) +
      If(contract, Contract)
  }

  function ConfigurationDifferences(actual: Configuration, expected: Configuration,
    left: map<string, Folder>, right: map<string, Folder>): seq<Part>
  {
    Labelled(
      actual.memory != expected.memory,
      SelectionDiffers(actual.command, expected.command, PLAYBACK),
      AudioInputDiffers(actual, expected),
      !SameAt(left, right, PathMapping.CACHE),
      !SameAt(left, right, PathMapping.WORKTREES),
      !SameAt(left, right, PathMapping.MODELS),
      !SameGroup(left, right, Lower(MOUNTS_PREFIX)),
      !SameGroup(left, right, Lower(WORKSPACES_PREFIX)),
      ContractDiffers(actual, expected, left, right))
  }

  /** The parts that describeWSBLaunchDifferences names; it fails when the expected data cannot be read. */
  function Differences(actualData: string, expectedData: string, codec: Codec): Option<seq<Part>> {
    if actualData == expectedData then Some([])
    else
      var actual, expected := codec.decode(actualData), codec.decode(expectedData);
      if actual.None? then Some([Contract])
      else if expected.None? then None
      else
        var parts := ConfigurationDifferences(actual.value, expected.value, Indexed(actual.value.folders),
          Indexed(expected.value.folders));
        if parts == [] && actualData != codec.encode(actual.value) then Some([Contract]) else Some(parts)
  }

  method DifferingParts(actualData: string, expectedData: string, codec: Codec) returns (differences: Option<seq<Part>>)
    ensures differences == Differences(actualData, expectedData, codec)
  {
    if actualData == expectedData {
      return Some([]);
    }
    var actual, expected := codec.decode(actualData), codec.decode(expectedData);
    if actual.None? {
      return Some([Contract]);
    }
    if expected.None? {
      return None;
    }
    var parts := DescribeConfigurations(actual.value, expected.value);
    if |parts| == 0 && actualData != codec.encode(actual.value) {
      assert parts == [];
      parts := parts + [Contract];
      assert parts == [Contract];
    }
    return Some(parts);
  }

  /** The labels of these parts, sorted; there is one such list. */
  ghost predicate LabelsOf(parts: seq<Part>, labels: seq<string>) {
    Ordering.StrictlySorted(labels) && forall text :: text in labels <==>
      exists part :: part in parts && LabelOf(part) == text
  }

  method SortLabels(parts: seq<Part>) returns (labels: seq<string>)
    ensures LabelsOf(parts, labels) && (labels == [] <==> parts == [])
  {
    var elements := set part | part in parts :: LabelOf(part);
    labels := Ordering.Sorted(elements);
    assert parts != [] ==> LabelOf(parts[0]) in labels;
    assert labels != [] ==> labels[0] in elements;
  }

  /** describeWSBLaunchDifferences. */
  method DescribeDifferences(actualData: string, expectedData: string, codec: Codec)
    returns (labels: Option<seq<string>>)
    ensures labels.Some? <==> Differences(actualData, expectedData, codec).Some?
    ensures labels.Some? ==> LabelsOf(Differences(actualData, expectedData, codec).value, labels.value)
    ensures labels == Some([]) <==> Differences(actualData, expectedData, codec) == Some([])
  {
    var differences := DifferingParts(actualData, expectedData, codec);
    if differences.None? {
      return None;
    }
    var sorted := SortLabels(differences.value);
    return Some(sorted);
  }

  lemma LabelsDiffer(a: Part, b: Part)
    requires LabelOf(a) == LabelOf(b)
    ensures a == b
  {
    LabelStart(a);
    LabelStart(b);
  }

  /** The length and a letter of a label tell its part. */
  lemma LabelStart(part: Part)
    ensures |LabelOf(part)| ==
      match part
      case Memory => 6
      case AudioOutput => 12
      case AudioInput => 11
      case Cache => 5
      case Worktrees => 18
      case Models => 16
      case Mounts => 13
      case Workspaces => 10
      case Contract => 15
  {
  }

  /** A part is named exactly when it differs. */
  lemma LabelledIff(parts: seq<Part>, labels: seq<string>, part: Part)
    requires LabelsOf(parts, labels)
    ensures LabelOf(part) in labels <==> part in parts
  {
    forall other | LabelOf(other) == LabelOf(part) ensures other == part {
      LabelsDiffer(other, part);
    }
  }

  method Append(parts: seq<Part>, condition: bool, part: Part) returns (appended: seq<Part>)
    ensures appended == parts + If(condition, part)
  {
    appended := parts;
    if condition {
      appended := appended + [part];
    }
  }

  method Label(memory: bool, audioOutput: bool, audioInput: bool, cache: bool, worktrees: bool, models: bool,
    mounts: bool, workspaces: bool, contract: bool) returns (parts: seq<Part>)
    ensures parts == Labelled(memory, audioOutput, audioInput, cache, worktrees, models, mounts, workspaces, contract)
  {
    parts := Append([], memory, Memory);
    parts := Append(parts, audioOutput, AudioOutput);
    parts := Append(parts, audioInput, AudioInput);
    parts := Append(parts, cache, Cache);
    parts := Append(parts, worktrees, Worktrees);
    parts := Append(parts, models, Models);
    parts := Append(parts, mounts, Mounts);
    parts := Append(parts, workspaces, Workspaces);
    parts := Append(parts, contract, Contract);
  }

  method DescribeConfigurations(actual: Configuration, expected: Configuration) returns (parts: seq<Part>)
    ensures parts == ConfigurationDifferences(actual, expected, Indexed(actual.folders), Indexed(expected.folders))
  {
    var left := IndexMappings(actual.folders);
    var right := IndexMappings(expected.folders);
    var actualCommand := NormaliseAudioSelections(actual.command);
    var expectedCommand := NormaliseAudioSelections(expected.command);
    parts := Label(
      actual.memory != expected.memory,
      SelectionDiffers(actual.command, expected.command, PLAYBACK),
      AudioInputDiffers(actual, expected),
      !SameAt(left, right, PathMapping.CACHE),
      !SameAt(left, right, PathMapping.WORKTREES),
      !SameAt(left, right, PathMapping.MODELS),
      !SameGroup(left, right, Lower(MOUNTS_PREFIX)),
      !SameGroup(left, right, Lower(WORKSPACES_PREFIX)),
      OtherDiffers(actual, expected, left, right) || actualCommand != expectedCommand);
  }

  // ---------------------------------------------------------------- what the index keeps

  ghost predicate DistinctIdentities(folders: seq<Folder>) {
    forall i, j :: 0 <= i < j < |folders| ==> Identity(folders[i]) != Identity(folders[j])
  }

  /** Every folder is one of the tool's, and none is listed twice. */
  ghost predicate WellMapped(folders: seq<Folder>) {
    (forall i :: 0 <= i < |folders| ==> Known(Identity(folders[i]))) && DistinctIdentities(folders)
  }

  /** Keys made up for folders without an identity of their own are unknown. */
  lemma MadeUpIsUnknown(key: string)
    requires key == "" || key[0] == '<'
    ensures !Known(key)
  {
    var known := KnownFolders();
    assert Text(PathMapping.INPUT)[0] == 'C' && Text(PathMapping.STATUS)[0] == 'C' && Text(PathMapping.CACHE)[0] == 'C';
    assert Text(PathMapping.MODELS)[0] == 'C' && Text(PathMapping.WORKTREES)[0] == 'C';
    assert forall k :: 0 <= k < 5 ==> known[k] != "" && known[k][0] == 'c';
    assert Lower(MOUNTS_PREFIX)[0] == 'c' && Lower(WORKSPACES_PREFIX)[0] == 'c';
  }

  lemma KeyOfLast(filed: map<string, Folder>, folder: Folder)
    ensures Known(Key(filed, folder)) ==> Key(filed, folder) == Identity(folder) && Identity(folder) !in filed
    ensures Known(Identity(folder)) && Identity(folder) !in filed ==> Key(filed, folder) == Identity(folder)
  {
    MadeUpIsUnknown("");
    MadeUpIsUnknown("<empty-" + Decimal(|filed|) + ">");
    MadeUpIsUnknown("<duplicate-" + Decimal(|filed|) + ">");
  }

  ghost predicate AllKnown(filed: map<string, Folder>) {
    forall key :: key in filed ==> Known(key)
  }

  /** Filed by identity, and nothing else. */
  ghost predicate FiledByIdentity(filed: map<string, Folder>, folders: seq<Folder>) {
    && (forall i :: 0 <= i < |folders| ==> Identity(folders[i]) in filed && filed[Identity(folders[i])] == folders[i])
    && (forall key :: key in filed ==> exists i :: 0 <= i < |folders| && Identity(folders[i]) == key)
  }

  lemma FiledOneMore(filed: map<string, Folder>, folders: seq<Folder>, folder: Folder)
    requires FiledByIdentity(filed, folders) && Identity(folder) !in filed
    ensures FiledByIdentity(filed[Identity(folder) := folder], folders + [folder])
  {
    var all, more := folders + [folder], filed[Identity(folder) := folder];
    forall key | key in more ensures exists i :: 0 <= i < |all| && Identity(all[i]) == key {
      if key in filed {
        var i :| 0 <= i < |folders| && Identity(folders[i]) == key;
        assert Identity(all[i]) == key;
      } else {
        assert Identity(all[|folders|]) == key;
      }
    }
  }

  lemma WellMappedOneMore(filed: map<string, Folder>, folders: seq<Folder>, folder: Folder)
    requires WellMapped(folders) ==> FiledByIdentity(filed, folders)
    ensures WellMapped(folders + [folder]) <==>
      WellMapped(folders) && Known(Identity(folder)) && (WellMapped(folders) ==> Identity(folder) !in filed)
  {
    var all := folders + [folder];
    if WellMapped(all) {
      assert forall i :: 0 <= i < |folders| ==> all[i] == folders[i];
      assert WellMapped(folders);
      assert Known(Identity(all[|folders|]));
    }
  }

  /** What the index of a list shows of it. */
  ghost predicate IndexShows(filed: map<string, Folder>, folders: seq<Folder>) {
    && (AllKnown(filed) <==> WellMapped(folders))
    && (WellMapped(folders) ==> FiledByIdentity(filed, folders))
  }

  lemma IndexOneMore(filed: map<string, Folder>, before: seq<Folder>, last: Folder)
    requires IndexShows(filed, before)
    ensures IndexShows(filed[Key(filed, last) := last], before + [last])
  {
    KeyOfLast(filed, last);
    WellMappedOneMore(filed, before, last);
    if WellMapped(before) && Known(Identity(last)) && Identity(last) !in filed {
      FiledOneMore(filed, before, last);
    }
    KeyStays(filed, Key(filed, last), last);
  }

  lemma NothingIndexed()
    ensures IndexShows(map[], [])
  {
  }

  lemma {:induction false} IndexShown(folders: seq<Folder>)
    ensures IndexShows(Indexed(folders), folders)
  {
    if folders == [] {
      NothingIndexed();
    } else {
      var n := |folders| - 1;
      assert folders == folders[..n] + [folders[n]];
      IndexShown(folders[..n]);
      IndexOneMore(Indexed(folders[..n]), folders[..n], folders[n]);
    }
  }

  /** No unknown key in the index exactly when the list is well mapped; a duplicate or unknown folder always shows. */
  lemma IndexKnownIff(folders: seq<Folder>)
    ensures AllKnown(Indexed(folders)) <==> WellMapped(folders)
    ensures WellMapped(folders) ==> FiledByIdentity(Indexed(folders), folders)
  {
    IndexShown(folders);
  }

  lemma KeyStays(filed: map<string, Folder>, key: string, folder: Folder)
    ensures AllKnown(filed[key := folder]) <==> AllKnown(filed) && Known(key)
  {
    assert forall k :: k in filed ==> k in filed[key := folder];
    assert key in filed[key := folder];
  }

  lemma LabelledFacts(memory: bool, audioOutput: bool, audioInput: bool, cache: bool, worktrees: bool, models: bool,
    mounts: bool, workspaces: bool, contract: bool)
    ensures Labelled(memory, audioOutput, audioInput, cache, worktrees, models, mounts, workspaces, contract) == [] <==>
      !(memory || audioOutput || audioInput || cache || worktrees || models || mounts || workspaces || contract)
    ensures contract ==>
      Contract in Labelled(memory, audioOutput, audioInput, cache, worktrees, models, mounts, workspaces, contract)
  {
    var parts := Labelled(memory, audioOutput, audioInput, cache, worktrees, models, mounts, workspaces, contract);
    assert contract ==> parts[|parts| - 1] == Contract;
  }

  predicate AudioReported(actual: string, expected: string, parameter: string) {
    match AudioSelection(expected, parameter)
    case None => false
    case Some(selected) => AudioSelection(actual, parameter) != Some(selected)
  }

  lemma SelectionDiffersIff(actual: string, expected: string, parameter: string)
    ensures SelectionDiffers(actual, expected, parameter) <==> AudioReported(actual, expected, parameter)
  {
  }

  /** The settings that have a label of their own are named exactly when they differ; of the audio selections, only
      those that the expected command makes. */
  lemma SettingsReportedIff(actual: Configuration, expected: Configuration, left: map<string, Folder>,
                            right: map<string, Folder>)
    ensures ReportsSettings(ConfigurationDifferences(actual, expected, left, right),
      actual.memory != expected.memory, AudioReported(actual.command, expected.command, PLAYBACK),
      actual.audioInput != expected.audioInput || AudioReported(actual.command, expected.command, INPUT))
  {
    SettingsNamed(
      actual.memory != expected.memory,
      SelectionDiffers(actual.command, expected.command, PLAYBACK),
      AudioInputDiffers(actual, expected),
      !SameAt(left, right, PathMapping.CACHE),
      !SameAt(left, right, PathMapping.WORKTREES),
      !SameAt(left, right, PathMapping.MODELS),
      !SameGroup(left, right, Lower(MOUNTS_PREFIX)),
      !SameGroup(left, right, Lower(WORKSPACES_PREFIX)),
      ContractDiffers(actual, expected, left, right));
    SelectionDiffersIff(actual.command, expected.command, PLAYBACK);
    SelectionDiffersIff(actual.command, expected.command, INPUT);
  }

  /** And so are the folders with a label of their own. */
  lemma FoldersReportedIff(actual: Configuration, expected: Configuration, left: map<string, Folder>,
                           right: map<string, Folder>)
    ensures ReportsFolders(ConfigurationDifferences(actual, expected, left, right),
      !SameAt(left, right, ["C:", "HerdrSandbox", "cache"]), !SameAt(left, right, ["C:", "Worktrees"]),
      !SameAt(left, right, ["C:", "Models"]), !SameGroup(left, right, Lower("C:\\Mounts\\")),
      !SameGroup(left, right, Lower("C:\\Workspaces\\")))
  {
    FoldersNamed(
      actual.memory != expected.memory,
      SelectionDiffers(actual.command, expected.command, PLAYBACK),
      AudioInputDiffers(actual, expected),
      !SameAt(left, right, PathMapping.CACHE),
      !SameAt(left, right, PathMapping.WORKTREES),
      !SameAt(left, right, PathMapping.MODELS),
      !SameGroup(left, right, Lower(MOUNTS_PREFIX)),
      !SameGroup(left, right, Lower(WORKSPACES_PREFIX)),
      ContractDiffers(actual, expected, left, right));
  }

  predicate ReportsFolders(parts: seq<Part>, cache: bool, worktrees: bool, models: bool, mounts: bool,
                           workspaces: bool) {
    && (Cache in parts <==> cache) && (Worktrees in parts <==> worktrees) && (Models in parts <==> models)
    && (Mounts in parts <==> mounts) && (Workspaces in parts <==> workspaces)
  }

  lemma FoldersNamed(memory: bool, audioOutput: bool, audioInput: bool, cache: bool, worktrees: bool, models: bool,
    mounts: bool, workspaces: bool, contract: bool)
    ensures ReportsFolders(
      Labelled(memory, audioOutput, audioInput, cache, worktrees, models, mounts, workspaces, contract),
      cache, worktrees, models, mounts, workspaces)
  {
    Named(Cache, memory, audioOutput, audioInput, cache, worktrees, models, mounts, workspaces, contract);
    Named(Worktrees, memory, audioOutput, audioInput, cache, worktrees, models, mounts, workspaces, contract);
    Named(Models, memory, audioOutput, audioInput, cache, worktrees, models, mounts, workspaces, contract);
    Named(Mounts, memory, audioOutput, audioInput, cache, worktrees, models, mounts, workspaces, contract);
    Named(Workspaces, memory, audioOutput, audioInput, cache, worktrees, models, mounts, workspaces, contract);
  }

  lemma Named(part: Part, memory: bool, audioOutput: bool, audioInput: bool, cache: bool, worktrees: bool,
    models: bool, mounts: bool, workspaces: bool, contract: bool)
    ensures part in Labelled(memory, audioOutput, audioInput, cache, worktrees, models, mounts, workspaces, contract)
      <==>
      match part
      case Memory => memory
      case AudioOutput => audioOutput
      case AudioInput => audioInput
      case Cache => cache
      case Worktrees => worktrees
      case Models => models
      case Mounts => mounts
      case Workspaces => workspaces
      case Contract => contract
  {
    var s1 := [] + If(memory, Memory);
    InMore(part, [], memory, Memory);
    var s2 := s1 + If(audioOutput, AudioOutput);
    InMore(part, s1, audioOutput, AudioOutput);
    var s3 := s2 + If(audioInput, AudioInput);
    InMore(part, s2, audioInput, AudioInput);
    var s4 := s3 + If(cache, Cache);
    InMore(part, s3, cache, Cache);
    var s5 := s4 + If(worktrees, Worktrees);
    InMore(part, s4, worktrees, Worktrees);
    var s6 := s5 + If(models, Models);
    InMore(part, s5, models, Models);
    var s7 := s6 + If(mounts, Mounts);
    InMore(part, s6, mounts, Mounts);
    var s8 := s7 + If(workspaces, Workspaces);
    InMore(part, s7, workspaces, Workspaces);
    InMore(part, s8, contract, Contract);
  }

  lemma InMore(part: Part, parts: seq<Part>, condition: bool, more: Part)
    ensures part in parts + If(condition, more) <==> part in parts || (condition && part == more)
  {
  }

  predicate ReportsSettings(parts: seq<Part>, memory: bool, audioOutput: bool, audioInput: bool) {
    (Memory in parts <==> memory) && (AudioOutput in parts <==> audioOutput) && (AudioInput in parts <==> audioInput)
  }

  lemma SettingsNamed(memory: bool, audioOutput: bool, audioInput: bool, cache: bool, worktrees: bool, models: bool,
    mounts: bool, workspaces: bool, contract: bool)
    ensures ReportsSettings(
      Labelled(memory, audioOutput, audioInput, cache, worktrees, models, mounts, workspaces, contract),
      memory, audioOutput, audioInput)
  {
    Named(Memory, memory, audioOutput, audioInput, cache, worktrees, models, mounts, workspaces, contract);
    Named(AudioOutput, memory, audioOutput, audioInput, cache, worktrees, models, mounts, workspaces, contract);
    Named(AudioInput, memory, audioOutput, audioInput, cache, worktrees, models, mounts, workspaces, contract);
  }

  /** Whatever is expected, a list with a duplicate or unknown folder is reported. */
  lemma StrayFoldersReported(actual: Configuration, expected: Configuration, codec: Codec, actualData: string,
                             expectedData: string)
    requires codec.decode(actualData) == Some(actual) && codec.decode(expectedData) == Some(expected)
    requires actualData != expectedData && !WellMapped(actual.folders)
    ensures Differences(actualData, expectedData, codec).Some?
    ensures Contract in Differences(actualData, expectedData, codec).value
  {
    var left, right := Indexed(actual.folders), Indexed(expected.folders);
    IndexKnownIff(actual.folders);
    UnexpectedReported(actual, expected, left, right);
    var parts := ConfigurationDifferences(actual, expected, left, right);
    DifferencesAre(actual, expected, codec, actualData, expectedData, parts);
  }

  lemma DifferencesAre(actual: Configuration, expected: Configuration, codec: Codec, actualData: string,
                       expectedData: string, parts: seq<Part>)
    requires codec.decode(actualData) == Some(actual) && codec.decode(expectedData) == Some(expected)
    requires actualData != expectedData && parts != []
    requires parts == ConfigurationDifferences(actual, expected, Indexed(actual.folders), Indexed(expected.folders))
    ensures Differences(actualData, expectedData, codec) == Some(parts)
  {
  }

  lemma UnexpectedReported(actual: Configuration, expected: Configuration, left: map<string, Folder>,
                           right: map<string, Folder>)
    requires !AllKnown(left)
    ensures Contract in ConfigurationDifferences(actual, expected, left, right)
  {
    LabelledFacts(
      actual.memory != expected.memory,
      SelectionDiffers(actual.command, expected.command, PLAYBACK),
      AudioInputDiffers(actual, expected),
      !SameAt(left, right, PathMapping.CACHE),
      !SameAt(left, right, PathMapping.WORKTREES),
      !SameAt(left, right, PathMapping.MODELS),
      !SameGroup(left, right, Lower(MOUNTS_PREFIX)),
      !SameGroup(left, right, Lower(WORKSPACES_PREFIX)),
      ContractDiffers(actual, expected, left, right));
    assert HasUnexpected(left);
  }

  // ---------------------------------------------------------------- the same folders, up to order and case

  /** A folder up to case. */
  function Folded(folder: Folder): Folder {
    Folder(Lower(folder.host), Lower(folder.guest), folder.readOnly)
  }

  function FoldedAll(folders: seq<Folder>): (r: seq<Folder>)
    ensures |r| == |folders| && forall k :: 0 <= k < |r| ==> r[k] == Folded(folders[k])
  {
    seq(|folders|, k requires 0 <= k < |folders| => Folded(folders[k]))
  }

  lemma SpaceFold(c: char)
    ensures IsSpace(LowerChar(c)) <==> IsSpace(c)
  {
  }

  lemma {:induction false} TrimLeftFolds(text: string)
    ensures TrimLeft(Lower(text)) == Lower(TrimLeft(text))
  {
    if text != "" {
      SpaceFold(text[0]);
      assert Lower(text)[1..] == Lower(text[1..]);
      TrimLeftFolds(text[1..]);
    }
  }

  lemma {:induction false} TrimRightFolds(text: string)
    ensures TrimRight(Lower(text)) == Lower(TrimRight(text))
  {
    if text != "" {
      SpaceFold(text[|text| - 1]);
      assert Lower(text)[..|text| - 1] == Lower(text[..|text| - 1]);
      TrimRightFolds(text[..|text| - 1]);
    }
  }

  /** The identity depends on the folded folder only. */
  lemma IdentityFolds(folder: Folder)
    ensures Identity(folder) == Trim(Folded(folder).guest)
    ensures Identity(folder) != "" ==> Folded(folder).guest != ""
  {
    TrimLeftFolds(folder.guest);
    TrimRightFolds(TrimLeft(folder.guest));
  }

  lemma SameElements<T>(s: seq<T>, t: seq<T>)
    requires NoRepeat(s) && NoRepeat(t) && forall x :: x in s <==> x in t
    ensures multiset(s) == multiset(t)
  {
    forall x ensures multiset(s)[x] == multiset(t)[x] {
      Multiplicity(s, x);
      Multiplicity(t, x);
    }
  }

  // ---------------------------------------------------------------- agreeing indexes

  /** No folder of the index has an empty guest path. */
  ghost predicate Rooted(filed: map<string, Folder>) {
    forall key :: key in filed ==> filed[key].guest != ""
  }

  ghost predicate SameKeyed(left: map<string, Folder>, right: map<string, Folder>, key: string) {
    (key in left <==> key in right) && (key in left ==> SameFolder(left[key], right[key]))
  }

  ghost predicate SameIndex(left: map<string, Folder>, right: map<string, Folder>) {
    forall key :: SameKeyed(left, right, key)
  }

  predicate FoldersAgree(left: map<string, Folder>, right: map<string, Folder>) {
    && SameAt(left, right, PathMapping.CACHE) && SameAt(left, right, PathMapping.WORKTREES)
    && SameAt(left, right, PathMapping.MODELS) && SameAt(left, right, PathMapping.INPUT)
    && SameAt(left, right, PathMapping.STATUS)
    && SameGroup(left, right, Lower(MOUNTS_PREFIX)) && SameGroup(left, right, Lower(WORKSPACES_PREFIX))
    && !HasUnexpected(left) && !HasUnexpected(right)
  }

  lemma AtAgrees(left: map<string, Folder>, right: map<string, Folder>, key: string)
    requires Rooted(left) && Rooted(right)
    ensures SameFolder(At(left, key), At(right, key)) <==> SameKeyed(left, right, key)
  {
    assert forall folder: Folder :: folder.guest != "" ==> |Lower(folder.guest)| > 0;
  }

  lemma SubsetOfSameSize<T>(a: set<T>, b: set<T>)
    requires a <= b && |a| == |b|
    ensures a == b
  {
    assert |b - a| == |b| - |a|;
    assert b == a + (b - a);
  }

  lemma GroupAgrees(left: map<string, Folder>, right: map<string, Folder>, prefix: string)
    requires Rooted(left) && Rooted(right)
    ensures SameGroup(left, right, prefix) <==> forall key :: prefix <= key ==> SameKeyed(left, right, key)
  {
    var l, r := Group(left, prefix), Group(right, prefix);
    if SameGroup(left, right, prefix) {
      forall key | key in l ensures key in r && SameFolder(left[key], right[key]) {
        AtAgrees(l, r, key);
      }
      assert l.Keys <= r.Keys;
      SubsetOfSameSize(l.Keys, r.Keys);
      forall key | prefix <= key ensures SameKeyed(left, right, key) {
        assert key in l.Keys <==> key in r.Keys;
      }
    }
    if forall key :: prefix <= key ==> SameKeyed(left, right, key) {
      assert forall key :: key in l ==> SameKeyed(left, right, key);
      assert forall key :: key in r ==> SameKeyed(left, right, key);
      assert l.Keys == r.Keys;
      assert |l| == |l.Keys| == |r.Keys| == |r|;
      forall key | key in l ensures SameFolder(left[key], At(r, key)) {
        assert SameKeyed(left, right, key);
      }
    }
  }

  lemma FoldersAgreeIff(left: map<string, Folder>, right: map<string, Folder>)
    requires AllKnown(left) && AllKnown(right) && Rooted(left) && Rooted(right)
    ensures FoldersAgree(left, right) <==> SameIndex(left, right)
  {
    AtAgrees(left, right, Lower(Text(PathMapping.CACHE)));
    AtAgrees(left, right, Lower(Text(PathMapping.WORKTREES)));
    AtAgrees(left, right, Lower(Text(PathMapping.MODELS)));
    AtAgrees(left, right, Lower(Text(PathMapping.INPUT)));
    AtAgrees(left, right, Lower(Text(PathMapping.STATUS)));
    GroupAgrees(left, right, Lower(MOUNTS_PREFIX));
    GroupAgrees(left, right, Lower(WORKSPACES_PREFIX));
    if FoldersAgree(left, right) {
      forall key ensures SameKeyed(left, right, key) {
        KeyAgrees(left, right, key);
      }
    }
  }

  lemma KeyAgrees(left: map<string, Folder>, right: map<string, Folder>, key: string)
    requires AllKnown(left) && AllKnown(right)
    requires SameKeyed(left, right, Lower(Text(PathMapping.CACHE)))
    requires SameKeyed(left, right, Lower(Text(PathMapping.WORKTREES)))
    requires SameKeyed(left, right, Lower(Text(PathMapping.MODELS)))
    requires SameKeyed(left, right, Lower(Text(PathMapping.INPUT)))
    requires SameKeyed(left, right, Lower(Text(PathMapping.STATUS)))
    requires Lower(MOUNTS_PREFIX) <= key || Lower(WORKSPACES_PREFIX) <= key ==> SameKeyed(left, right, key)
    ensures SameKeyed(left, right, key)
  {
    KnownKinds(key);
  }

  lemma KnownKinds(key: string)
    ensures Known(key) ==>
      || key == Lower(Text(PathMapping.CACHE)) || key == Lower(Text(PathMapping.WORKTREES)) ||
           key == Lower(Text(PathMapping.MODELS))
      || key == Lower(Text(PathMapping.INPUT)) || key == Lower(Text(PathMapping.STATUS))
      || Lower(MOUNTS_PREFIX) <= key || Lower(WORKSPACES_PREFIX) <= key
  {
  }

  // ---------------------------------------------------------------- the main theorem

  lemma FiledIsRooted(filed: map<string, Folder>, folders: seq<Folder>)
    requires AllKnown(filed) && FiledByIdentity(filed, folders)
    ensures Rooted(filed)
  {
    forall key | key in filed ensures filed[key].guest != "" {
      MadeUpIsUnknown("");
      assert Trim("") == "" && Lower("") == "";
      var i :| 0 <= i < |folders| && Identity(folders[i]) == key;
      assert filed[key] == folders[i];
    }
  }

  lemma WellMappedNoRepeat(folders: seq<Folder>)
    requires DistinctIdentities(folders)
    ensures NoRepeat(FoldedAll(folders))
  {
    var folded := FoldedAll(folders);
    forall i, j | 0 <= i < j < |folded| ensures folded[i] != folded[j] {
      IdentityFolds(folders[i]);
      IdentityFolds(folders[j]);
    }
  }

  lemma SameFolderIsFolded(left: Folder, right: Folder)
    ensures SameFolder(left, right) <==> Folded(left) == Folded(right)
    ensures SameFolder(left, right) ==> Identity(left) == Identity(right)
  {
    IdentityFolds(left);
    IdentityFolds(right);
  }

  lemma FoldedAmong(a: seq<Folder>, left: map<string, Folder>, e: seq<Folder>, right: map<string, Folder>, x: Folder)
    requires FiledByIdentity(left, a) && FiledByIdentity(right, e) && SameIndex(left, right)
    requires x in FoldedAll(a)
    ensures x in FoldedAll(e)
  {
    var i :| 0 <= i < |a| && Folded(a[i]) == x;
    var key := Identity(a[i]);
    assert SameKeyed(left, right, key);
    var j :| 0 <= j < |e| && Identity(e[j]) == key;
    SameFolderIsFolded(a[i], e[j]);
    assert FoldedAll(e)[j] == x;
  }

  lemma SameIndexSame(a: seq<Folder>, left: map<string, Folder>, e: seq<Folder>, right: map<string, Folder>)
    requires DistinctIdentities(a) && DistinctIdentities(e)
    requires FiledByIdentity(left, a) && FiledByIdentity(right, e) && SameIndex(left, right)
    ensures multiset(FoldedAll(a)) == multiset(FoldedAll(e))
  {
    forall key ensures SameKeyed(right, left, key) {
      assert SameKeyed(left, right, key);
    }
    forall x ensures x in FoldedAll(a) <==> x in FoldedAll(e) {
      if x in FoldedAll(a) { FoldedAmong(a, left, e, right, x); }
      if x in FoldedAll(e) { FoldedAmong(e, right, a, left, x); }
    }
    WellMappedNoRepeat(a);
    WellMappedNoRepeat(e);
    SameElements(FoldedAll(a), FoldedAll(e));
  }

  lemma SameFoldersDistinct(a: seq<Folder>, e: seq<Folder>)
    requires DistinctIdentities(e) && multiset(FoldedAll(a)) == multiset(FoldedAll(e))
    ensures DistinctIdentities(a)
  {
    forall i, j | 0 <= i < j < |a| ensures Identity(a[i]) != Identity(a[j]) {
      var k := Counterpart(a, e, i);
      var l := Counterpart(a, e, j);
      NotTwice(a, e, i, j);
    }
  }

  /** A list with the same folders, up to order and case, is as well mapped. */
  lemma SameFoldersWellMapped(a: seq<Folder>, e: seq<Folder>)
    requires WellMapped(e) && multiset(FoldedAll(a)) == multiset(FoldedAll(e))
    ensures WellMapped(a)
  {
    forall i | 0 <= i < |a| ensures Known(Identity(a[i])) {
      var j := Counterpart(a, e, i);
    }
    SameFoldersDistinct(a, e);
  }

  lemma NotTwice(a: seq<Folder>, e: seq<Folder>, i: nat, j: nat)
    requires i < j < |a| && DistinctIdentities(e) && multiset(FoldedAll(a)) == multiset(FoldedAll(e))
    ensures Folded(a[i]) != Folded(a[j])
  {
    WellMappedNoRepeat(e);
    Multiplicity(FoldedAll(a), FoldedAll(a)[i]);
    Multiplicity(FoldedAll(e), FoldedAll(a)[i]);
    assert FoldedAll(a)[j] == Folded(a[j]);
  }

  lemma Counterpart(a: seq<Folder>, e: seq<Folder>, i: nat) returns (j: nat)
    requires i < |a| && multiset(FoldedAll(a)) == multiset(FoldedAll(e))
    ensures j < |e| && Folded(a[i]) == Folded(e[j]) && Identity(a[i]) == Identity(e[j])
  {
    var x := FoldedAll(a)[i];
    assert x in multiset(FoldedAll(a));
    assert x in FoldedAll(e);
    j :| 0 <= j < |e| && FoldedAll(e)[j] == x;
    SameFolderIsFolded(a[i], e[j]);
  }

  lemma SameIsSameIndex(a: seq<Folder>, left: map<string, Folder>, e: seq<Folder>, right: map<string, Folder>)
    requires FiledByIdentity(left, a) && FiledByIdentity(right, e)
    requires multiset(FoldedAll(a)) == multiset(FoldedAll(e))
    ensures SameIndex(left, right)
  {
    forall key ensures SameKeyed(left, right, key) {
      if key in left {
        var i :| 0 <= i < |a| && Identity(a[i]) == key;
        var j := Counterpart(a, e, i);
        SameFolderIsFolded(a[i], e[j]);
      }
      if key in right {
        var j :| 0 <= j < |e| && Identity(e[j]) == key;
        var i := Counterpart(e, a, j);
      }
    }
  }

  /** The index comparison finds nothing exactly when the lists are the same, up to order and case. */
  lemma FoldersAgreeExactly(a: seq<Folder>, e: seq<Folder>)
    requires WellMapped(e)
    ensures FoldersAgree(Indexed(a), Indexed(e)) <==> multiset(FoldedAll(a)) == multiset(FoldedAll(e))
  {
    var left, right := Indexed(a), Indexed(e);
    IndexKnownIff(a);
    IndexKnownIff(e);
    FiledIsRooted(right, e);
    if multiset(FoldedAll(a)) == multiset(FoldedAll(e)) {
      SameFoldersWellMapped(a, e);
      SameIsSameIndex(a, left, e, right);
    }
    if WellMapped(a) {
      FiledIsRooted(left, a);
      FoldersAgreeIff(left, right);
      if SameIndex(left, right) {
        SameIndexSame(a, left, e, right);
      }
    } else {
      assert HasUnexpected(left);
    }
  }

  /** The same launch: equal settings and command, and the same folders up to order and case. */
  ghost predicate SameLaunch(actual: Configuration, expected: Configuration) {
    actual == expected.(folders := actual.folders) &&
    multiset(FoldedAll(actual.folders)) == multiset(FoldedAll(expected.folders))
  }

  lemma NoPartIff(actual: Configuration, expected: Configuration, left: map<string, Folder>, right: map<string, Folder>)
    ensures ConfigurationDifferences(actual, expected, left, right) == [] <==>
      && actual.memory == expected.memory && actual.audioInput == expected.audioInput &&
           SameStaticContract(actual, expected)
      && !SelectionDiffers(actual.command, expected.command, PLAYBACK) &&
           !SelectionDiffers(actual.command, expected.command, INPUT)
      && Normalised(actual.command) == Normalised(expected.command)
      && FoldersAgree(left, right)
  {
    LabelledFacts(
      actual.memory != expected.memory,
      SelectionDiffers(actual.command, expected.command, PLAYBACK),
      AudioInputDiffers(actual, expected),
      !SameAt(left, right, PathMapping.CACHE),
      !SameAt(left, right, PathMapping.WORKTREES),
      !SameAt(left, right, PathMapping.MODELS),
      !SameGroup(left, right, Lower(MOUNTS_PREFIX)),
      !SameGroup(left, right, Lower(WORKSPACES_PREFIX)),
      ContractDiffers(actual, expected, left, right));
  }

  /** No part differs exactly when the two configurations are the same launch. */
  lemma NoDifferenceInParts(actual: Configuration, expected: Configuration, audioOutput: bool, audioInput: bool)
    requires WellMapped(expected.folders) && expected.command == LogonCommand(audioOutput, audioInput)
    ensures ConfigurationDifferences(actual, expected, Indexed(actual.folders), Indexed(expected.folders)) == []
       <==> SameLaunch(actual, expected)
  {
    NoPartIff(actual, expected, Indexed(actual.folders), Indexed(expected.folders));
    FoldersAgreeExactly(actual.folders, expected.folders);
    CommandRecovered(actual.command, audioOutput, audioInput);
  }

  /** For every configuration with a logon command and well-mapped folders, and whatever data is found: nothing is
      reported exactly when the data is the canonical form of the same launch. */
  lemma NoDifferenceIff(actualData: string, expected: Configuration, audioOutput: bool, audioInput: bool, codec: Codec)
    requires Faithful(codec) && WellMapped(expected.folders)
    requires expected.command == LogonCommand(audioOutput, audioInput)
    ensures Differences(actualData, codec.encode(expected), codec) == Some([])
       <==> exists c :: actualData == codec.encode(c) && SameLaunch(c, expected)
  {
    assert codec.decode(codec.encode(expected)) == Some(expected);
    if actualData == codec.encode(expected) {
      assert SameLaunch(expected, expected);
    } else if codec.decode(actualData).Some? {
      NoDifferenceInParts(codec.decode(actualData).value, expected, audioOutput, audioInput);
      CanonicalIff(actualData, expected, codec);
    } else {
      assert forall c :: codec.decode(codec.encode(c)) == Some(c);
    }
  }

  lemma CanonicalIff(actualData: string, expected: Configuration, codec: Codec)
    requires Faithful(codec) && codec.decode(actualData).Some?
    ensures (exists c :: actualData == codec.encode(c) && SameLaunch(c, expected)) <==>
      actualData == codec.encode(codec.decode(actualData).value) && SameLaunch(codec.decode(actualData).value, expected)
  {
    assert forall c :: codec.decode(codec.encode(c)) == Some(c);
  }

  // ---------------------------------------------------------------- rendered configurations

  function FolderOf(mapping: PathMapping.Mapping): Folder {
    Folder(Text(mapping.host), Text(mapping.guest), mapping.readOnly)
  }

  function FoldersOf(mappings: seq<PathMapping.Mapping>): (r: seq<Folder>)
    ensures |r| == |mappings| && forall k :: 0 <= k < |r| ==> r[k] == FolderOf(mappings[k])
  {
    seq(|mappings|, k requires 0 <= k < |mappings| => FolderOf(mappings[k]))
  }

  /** The configuration that rendering encodes. */
  function ConfigurationOf(plan: PathMapping.Plan): Configuration {
    Configuration(
      "Enable", "Enable", if plan.audioInput then "Enable" else "Disable", "Disable", "Disable", "Disable", "Enable",
      plan.memory, FoldersOf(PathMapping.Listed(plan)), LogonCommand(plan.audioOutput, plan.audioInput))
  }

  /** What a rendered configuration asks for: the microphone and the sound that the plan allows, in the setting and in
      the command, and of the other settings always the same. */
  lemma RenderedSettings(plan: PathMapping.Plan)
    ensures var c := ConfigurationOf(plan);
      && c.audioInput == (if plan.audioInput then "Enable" else "Disable") && c.memory == plan.memory
      && AudioSelection(c.command, PLAYBACK) == Some(plan.audioOutput)
      && AudioSelection(c.command, INPUT) == Some(plan.audioInput)
      && c.vGPU == c.networking == c.clipboardRedirection == "Enable"
      && c.videoInput == c.protectedClient == c.printerRedirection == "Disable"
  {
    CommandRecovered(LogonCommand(plan.audioOutput, plan.audioInput), plan.audioOutput, plan.audioInput);
  }

  lemma {:induction false} TextFolds(parts: seq<string>)
    ensures Lower(Text(parts)) == Text(PathMapping.FoldAll(parts))
  {
    var folded := PathMapping.FoldAll(parts);
    if |parts| > 1 {
      assert folded[1..] == PathMapping.FoldAll(parts[1..]);
      TextFolds(parts[1..]);
      LowerConcat(parts[0] + "\\", Text(parts[1..]));
      LowerConcat(parts[0], "\\");
      assert Lower("\\") == "\\";
    }
  }

  /** The identity of a listed folder, from its folded path. */
  lemma IdentityOfPath(mapping: PathMapping.Mapping, folded: string)
    requires folded == Text(PathMapping.FoldAll(mapping.guest)) && folded != ""
    requires !IsSpace(folded[0]) && !IsSpace(folded[|folded| - 1])
    ensures Identity(FolderOf(mapping)) == folded
  {
    TextFolds(mapping.guest);
    IdentityFolds(FolderOf(mapping));
  }

  lemma ThreeParts(a: string, b: string, c: string)
    ensures Text([a, b, c]) == a + "\\" + b + "\\" + c
  {
    assert Text([c]) == c;
    assert [b, c][1..] == [c];
    assert Text([b, c]) == b + "\\" + c;
    assert [a, b, c][1..] == [b, c];
    assert Text([a, b, c]) == a + "\\" + Text([b, c]);
  }

  lemma FoldedThree(parent: string, name: string)
    ensures Text(PathMapping.FoldAll(["C:", parent, name])) == Lower("C:\\" + parent + "\\") + Lower(name)
  {
    TextFolds(["C:", parent, name]);
    ThreeParts("C:", parent, name);
    LowerConcat("C:\\" + parent + "\\", name);
  }

  lemma NamedFolderKnown(mapping: PathMapping.Mapping, parent: string, name: string)
    requires PathMapping.ValidName(name)
    requires PathMapping.FoldAll(mapping.guest) == PathMapping.FoldAll(["C:", parent, name])
    ensures Identity(FolderOf(mapping)) == Text(PathMapping.FoldAll(mapping.guest))
    ensures Lower("C:\\" + parent + "\\") <= Identity(FolderOf(mapping))
  {
    FoldedThree(parent, name);
    var folded := Lower("C:\\" + parent + "\\") + Lower(name);
    assert folded[|folded| - 1] == LowerChar(name[|name| - 1]);
    SpaceFold(name[|name| - 1]);
    IdentityOfPath(mapping, folded);
  }

  lemma OwnFolderKnown(mapping: PathMapping.Mapping)
    requires mapping.guest in PathMapping.RESERVED
    ensures Identity(FolderOf(mapping)) == Text(PathMapping.FoldAll(mapping.guest))
    ensures Known(Identity(FolderOf(mapping)))
  {
    var folded := Lower(Text(mapping.guest));
    TextFolds(mapping.guest);
    ReservedEnds(mapping.guest);
    IdentityOfPath(mapping, folded);
  }

  lemma ReservedEnds(guest: PathMapping.Path)
    requires guest in PathMapping.RESERVED
    ensures var folded := Lower(Text(guest));
      folded != "" && !IsSpace(folded[0]) && !IsSpace(folded[|folded| - 1])
  {
    ReservedTexts();
    ThreeParts("C:", "HerdrSandbox", "cache");
  }

  lemma ReservedTexts()
    ensures Text(PathMapping.INPUT) == "C:\\SandboxBootstrap" && Text(PathMapping.STATUS) == "C:\\SandboxStatus"
    ensures Text(PathMapping.MODELS) == "C:\\Models" && Text(PathMapping.WORKTREES) == "C:\\Worktrees"
  {
  }

  ghost predicate KnownByPath(mapping: PathMapping.Mapping) {
    var identity := Identity(FolderOf(mapping));
    identity == Text(PathMapping.FoldAll(mapping.guest)) && Known(identity)
  }

  lemma MountFolderKnown(mapping: PathMapping.Mapping, name: string)
    requires PathMapping.ValidName(name)
    requires PathMapping.FoldAll(mapping.guest) == PathMapping.FoldAll(["C:", "Mounts", name])
    ensures KnownByPath(mapping)
  {
    NamedFolderKnown(mapping, "Mounts", name);
    assert MOUNTS_PREFIX == "C:\\" + "Mounts" + "\\";
  }

  lemma WorkspaceFolderKnown(mapping: PathMapping.Mapping, name: string)
    requires PathMapping.ValidName(name)
    requires PathMapping.FoldAll(mapping.guest) == PathMapping.FoldAll(["C:", "Workspaces", name])
    ensures KnownByPath(mapping)
  {
    NamedFolderKnown(mapping, "Workspaces", name);
    assert WORKSPACES_PREFIX == "C:\\" + "Workspaces" + "\\";
  }

  lemma ToolFolderKnown(plan: PathMapping.Plan, k: nat)
    requires PathMapping.Accepted(plan) && k < |PathMapping.ToolMappings(plan)|
    ensures KnownByPath(PathMapping.ToolMappings(plan)[k])
  {
    var mapping := PathMapping.ToolMappings(plan)[k];
    var own := |PathMapping.OwnMappings(plan)| + |PathMapping.OptionalMappings(plan)|;
    if k < own {
      assert mapping.guest in PathMapping.RESERVED;
      OwnFolderKnown(mapping);
    } else {
      var mount := plan.mounts[k - own];
      assert PathMapping.MountOk(mount) && mapping == PathMapping.MountMapping(mount);
      MountFolderKnown(mapping, mount.name);
    }
  }

  lemma OwnGuestFolderKnown(workspace: PathMapping.Workspace)
    requires PathMapping.OwnGuestFolder(workspace)
    ensures KnownByPath(PathMapping.WorkspaceMapping(workspace))
  {
    WorkspaceFolderKnown(PathMapping.WorkspaceMapping(workspace), workspace.name);
  }

  /** Folders known by their paths are told apart by their identities. */
  lemma IdentitiesDiffer(plan: PathMapping.Plan, i: nat, j: nat)
    requires PathMapping.Accepted(plan) && i < |PathMapping.Checked(plan)| && j < |PathMapping.Checked(plan)| && i != j
    requires KnownByPath(PathMapping.Checked(plan)[i]) && KnownByPath(PathMapping.Checked(plan)[j])
    ensures Identity(FolderOf(PathMapping.Checked(plan)[i])) != Identity(FolderOf(PathMapping.Checked(plan)[j]))
  {
    var a, b := PathMapping.Checked(plan)[i].guest, PathMapping.Checked(plan)[j].guest;
    PathMapping.CheckedGuestsDistinct(plan, i, j);
    FoldedParts(a);
    FoldedParts(b);
    if Text(PathMapping.FoldAll(a)) == Text(PathMapping.FoldAll(b)) {
      JoinInjective(PathMapping.FoldAll(a), PathMapping.FoldAll(b), '\\');
    }
  }

  lemma ToolWellMapped(plan: PathMapping.Plan)
    requires PathMapping.Accepted(plan)
    ensures WellMapped(FoldersOf(PathMapping.ToolMappings(plan)))
  {
    var mappings := PathMapping.ToolMappings(plan);
    forall k | 0 <= k < |mappings| ensures KnownByPath(mappings[k]) {
      ToolFolderKnown(plan, k);
    }
    forall i, j | 0 <= i < j < |mappings| ensures Identity(FolderOf(mappings[i])) != Identity(FolderOf(mappings[j])) {
      assert mappings[i] == PathMapping.Checked(plan)[i] && mappings[j] == PathMapping.Checked(plan)[j];
      IdentitiesDiffer(plan, i, j);
    }
  }

  lemma WellMappedReordered(a: seq<Folder>, b: seq<Folder>)
    requires |a| == |b| >= 3 && forall k :: 0 <= k < |a| ==> a[k] == b[PathMapping.Reordered(k, |b|)]
    ensures WellMapped(a) <==> WellMapped(b)
  {
    var n := |a|;
    if WellMapped(a) {
      forall i | 0 <= i < n ensures Known(Identity(b[i])) {
        var k := PathMapping.ReorderedOnto(i, n);
        assert a[k] == b[i];
      }
      forall i, j | 0 <= i < j < n ensures Identity(b[i]) != Identity(b[j]) {
        var k := PathMapping.ReorderedOnto(i, n);
        var l := PathMapping.ReorderedOnto(j, n);
        assert a[k] == b[i] && a[l] == b[j] && k != l;
        assert k < l ==> Identity(a[k]) != Identity(a[l]);
        assert l < k ==> Identity(a[l]) != Identity(a[k]);
      }
    }
    if WellMapped(b) {
      forall i, j | 0 <= i < j < n ensures Identity(a[i]) != Identity(a[j]) {
        var k, l := PathMapping.Reordered(i, n), PathMapping.Reordered(j, n);
        assert k < l ==> Identity(b[k]) != Identity(b[l]);
        assert l < k ==> Identity(b[l]) != Identity(b[k]);
      }
    }
  }

  ghost predicate ApartByIdentity(a: seq<Folder>, b: seq<Folder>) {
    forall i, j :: 0 <= i < |a| && 0 <= j < |b| ==> Identity(a[i]) != Identity(b[j])
  }

  lemma WellMappedSplit(a: seq<Folder>, b: seq<Folder>)
    ensures WellMapped(a + b) <==> WellMapped(a) && WellMapped(b) && ApartByIdentity(a, b)
  {
    var all := a + b;
    if WellMapped(all) {
      assert forall i :: 0 <= i < |a| ==> all[i] == a[i];
      assert forall i :: 0 <= i < |b| ==> all[|a| + i] == b[i];
      forall i, j | 0 <= i < |a| && 0 <= j < |b| ensures Identity(a[i]) != Identity(b[j]) {
        assert Identity(all[i]) != Identity(all[|a| + j]);
      }
    }
  }

  /** The workspaces' folders are ones that a comparison recognises, and none stands for another folder. */
  ghost predicate WorkspacesRecognised(plan: PathMapping.Plan) {
    var folders := FoldersOf(PathMapping.WorkspaceMappings(plan.workspaces));
    WellMapped(folders) && ApartByIdentity(FoldersOf(PathMapping.ToolMappings(plan)), folders)
  }

  lemma FoldersConcat(a: seq<PathMapping.Mapping>, b: seq<PathMapping.Mapping>)
    ensures FoldersOf(a + b) == FoldersOf(a) + FoldersOf(b)
  {
  }

  lemma ListedOrChecked(plan: PathMapping.Plan)
    ensures WellMapped(ConfigurationOf(plan).folders) <==> WellMapped(FoldersOf(PathMapping.Checked(plan)))
  {
    PathMapping.ListedReordered(plan);
    FoldersReordered(PathMapping.Listed(plan), PathMapping.Checked(plan));
    WellMappedReordered(FoldersOf(PathMapping.Listed(plan)), FoldersOf(PathMapping.Checked(plan)));
  }

  lemma FoldersReordered(a: seq<PathMapping.Mapping>, b: seq<PathMapping.Mapping>)
    requires |a| == |b| >= 3 && forall k :: 0 <= k < |a| ==> a[k] == b[PathMapping.Reordered(k, |b|)]
    ensures |FoldersOf(a)| == |FoldersOf(b)| >= 3
    ensures forall k :: 0 <= k < |a| ==> FoldersOf(a)[k] == FoldersOf(b)[PathMapping.Reordered(k, |b|)]
  {
  }

  /** A rendered configuration lists only the tool's folders, each once, exactly when that is so of its workspaces. */
  lemma RenderedWellMappedIff(plan: PathMapping.Plan)
    requires PathMapping.Accepted(plan)
    ensures WellMapped(ConfigurationOf(plan).folders) <==> WorkspacesRecognised(plan)
  {
    var tool, workspaces := PathMapping.ToolMappings(plan), PathMapping.WorkspaceMappings(plan.workspaces);
    ListedOrChecked(plan);
    FoldersConcat(tool, workspaces);
    ToolWellMapped(plan);
    WellMappedSplit(FoldersOf(tool), FoldersOf(workspaces));
  }

  lemma CheckedFolderKnown(plan: PathMapping.Plan, k: nat)
    requires PathMapping.Accepted(plan) && PathMapping.PlannedGuests(plan) && k < |PathMapping.Checked(plan)|
    ensures KnownByPath(PathMapping.Checked(plan)[k])
  {
    var n := |PathMapping.ToolMappings(plan)|;
    if k < n {
      ToolFolderKnown(plan, k);
    } else {
      OwnGuestFolderKnown(plan.workspaces[k - n]);
    }
  }

  lemma KnownFoldersWellMapped(plan: PathMapping.Plan)
    requires PathMapping.Accepted(plan)
    requires forall k :: 0 <= k < |PathMapping.Checked(plan)| ==> KnownByPath(PathMapping.Checked(plan)[k])
    ensures WellMapped(FoldersOf(PathMapping.Checked(plan)))
  {
    var checked := PathMapping.Checked(plan);
    forall i, j | 0 <= i < j < |checked| ensures Identity(FolderOf(checked[i])) != Identity(FolderOf(checked[j])) {
      IdentitiesDiffer(plan, i, j);
    }
  }

  /** With the guest folders that the manifest demands it always is. */
  lemma RenderedWellMapped(plan: PathMapping.Plan)
    requires PathMapping.Accepted(plan) && PathMapping.PlannedGuests(plan)
    ensures WellMapped(ConfigurationOf(plan).folders)
  {
    forall k | 0 <= k < |PathMapping.Checked(plan)| ensures KnownByPath(PathMapping.Checked(plan)[k]) {
      CheckedFolderKnown(plan, k);
    }
    KnownFoldersWellMapped(plan);
    ListedOrChecked(plan);
  }

  lemma FoldedParts(path: PathMapping.Path)
    ensures WithoutSeparator(PathMapping.FoldAll(path), '\\')
  {
    forall k | 0 <= k < |path| ensures '\\' !in PathMapping.FoldAll(path)[k] {
      assert PathMapping.Name(path[k]);
      assert forall c: char :: LowerChar(c) == '\\' ==> c == '\\';
    }
  }

  /** An expected list with a duplicate or unknown folder is reported too, whatever is found, unless it is the same
      data. */
  lemma StrayExpected(actualData: string, expected: Configuration, codec: Codec)
    requires Faithful(codec) && !WellMapped(expected.folders)
    ensures Differences(actualData, codec.encode(expected), codec) == Some([]) <==> actualData == codec.encode(expected)
  {
    assert codec.decode(codec.encode(expected)) == Some(expected);
    if actualData != codec.encode(expected) && codec.decode(actualData).Some? {
      var actual := codec.decode(actualData).value;
      var left, right := Indexed(actual.folders), Indexed(expected.folders);
      IndexKnownIff(expected.folders);
      assert HasUnexpected(right);
      NoPartIff(actual, expected, left, right);
    }
  }

  /** For every plan that renders: nothing is reported exactly when the running configuration is the very same data, or
      its workspaces are recognised and the running configuration is the canonical form of the same launch, up to the
      order of the folders and the case of their paths. */
  lemma RenderedNoDifferenceIff(actualData: string, plan: PathMapping.Plan, codec: Codec)
    requires Faithful(codec) && PathMapping.Accepted(plan)
    ensures var expected := ConfigurationOf(plan);
      Differences(actualData, codec.encode(expected), codec) == Some([]) <==>
        || actualData == codec.encode(expected)
        || (WorkspacesRecognised(plan) && exists c :: actualData == codec.encode(c) && SameLaunch(c, expected))
  {
    RenderedWellMappedIff(plan);
    if WellMapped(ConfigurationOf(plan).folders) {
      NoDifferenceIff(actualData, ConfigurationOf(plan), plan.audioOutput, plan.audioInput, codec);
      assert SameLaunch(ConfigurationOf(plan), ConfigurationOf(plan));
    } else {
      StrayExpected(actualData, ConfigurationOf(plan), codec);
    }
  }

  // ---------------------------------------------------------------- plans instead of configurations

  /** One plan finds the Sandbox of another good enough exactly when they agree in the memory, in both audio selections,
      and in the folders up to order and case. */
  lemma PlansAgreeIff(plan: PathMapping.Plan, other: PathMapping.Plan, codec: Codec)
    requires Faithful(codec) && PathMapping.Accepted(plan) && WorkspacesRecognised(plan)
    ensures Differences(codec.encode(ConfigurationOf(other)), codec.encode(ConfigurationOf(plan)), codec) == Some([])
      <==>
      && other.memory == plan.memory && other.audioOutput == plan.audioOutput && other.audioInput == plan.audioInput
      && multiset(FoldedMappings(PathMapping.Listed(other))) == multiset(FoldedMappings(PathMapping.Listed(plan)))
  {
    RenderedNoDifferenceIff(codec.encode(ConfigurationOf(other)), plan, codec);
    assert codec.decode(codec.encode(ConfigurationOf(other))) == Some(ConfigurationOf(other));
    assert codec.decode(codec.encode(ConfigurationOf(plan))) == Some(ConfigurationOf(plan));
    CanonicalIff(codec.encode(ConfigurationOf(other)), ConfigurationOf(plan), codec);
    SameLaunchIff(plan, other);
    assert codec.encode(ConfigurationOf(other)) == codec.encode(ConfigurationOf(plan)) ==>
      ConfigurationOf(other) == ConfigurationOf(plan);
  }

  lemma SameLaunchIff(plan: PathMapping.Plan, other: PathMapping.Plan)
    ensures SameLaunch(ConfigurationOf(other), ConfigurationOf(plan)) <==>
      && other.memory == plan.memory && other.audioOutput == plan.audioOutput && other.audioInput == plan.audioInput
      && multiset(FoldedMappings(PathMapping.Listed(other))) == multiset(FoldedMappings(PathMapping.Listed(plan)))
  {
    RenderedSettings(plan);
    RenderedSettings(other);
  }

  // ---------------------------------------------------------------- the order of the workspaces

  function FoldedMappings(mappings: seq<PathMapping.Mapping>): seq<Folder> {
    FoldedAll(FoldersOf(mappings))
  }

  lemma FoldedMappingsSplit(left: seq<PathMapping.Mapping>, right: seq<PathMapping.Mapping>)
    ensures FoldedMappings(left + right) == FoldedMappings(left) + FoldedMappings(right)
  {
  }

  lemma WorkspacesPermute(a: seq<PathMapping.Workspace>, b: seq<PathMapping.Workspace>)
    requires multiset(a) == multiset(b)
    ensures multiset(FoldedMappings(PathMapping.WorkspaceMappings(a))) ==
      multiset(FoldedMappings(PathMapping.WorkspaceMappings(b)))
  {
    var f := (w: PathMapping.Workspace) => Folded(FolderOf(PathMapping.WorkspaceMapping(w)));
    MapPermutes(f, a, b);
    assert Map(f, a) == FoldedMappings(PathMapping.WorkspaceMappings(a));
    assert Map(f, b) == FoldedMappings(PathMapping.WorkspaceMappings(b));
  }

  /** The listed folders, around the workspaces. */
  lemma ListedSplit(plan: PathMapping.Plan)
    ensures multiset(FoldedAll(ConfigurationOf(plan).folders)) ==
      multiset(FoldedMappings(PathMapping.OwnMappings(plan)[..1])) +
      (multiset(FoldedMappings(PathMapping.OptionalMappings(plan))) +
       (multiset(FoldedMappings(PathMapping.MountMappings(plan.mounts))) +
        multiset(FoldedMappings(PathMapping.WorkspaceMappings(plan.workspaces))))) +
      multiset(FoldedMappings(PathMapping.OwnMappings(plan)[1..]))
  {
    var own, optional := PathMapping.OwnMappings(plan), PathMapping.OptionalMappings(plan);
    var mounts, workspaces := PathMapping.MountMappings(plan.mounts), PathMapping.WorkspaceMappings(plan.workspaces);
    FoldedMappingsSplit(own[..1] + (optional + (mounts + workspaces)), own[1..]);
    FoldedMappingsSplit(own[..1], optional + (mounts + workspaces));
    FoldedMappingsSplit(optional, mounts + workspaces);
    FoldedMappingsSplit(mounts, workspaces);
  }

  /** Two plans that differ in the order of their workspaces only, as sorting by the active project makes them. */
  predicate Reordering(plan: PathMapping.Plan, other: PathMapping.Plan) {
    other == plan.(workspaces := other.workspaces) && multiset(other.workspaces) == multiset(plan.workspaces)
  }

  /** Reordering the workspaces of a plan that renders forces a relaunch exactly when the data changes and the
      workspaces are not recognised; so it never does with the guest folders the manifest demands. */
  lemma ReorderingKeepsLaunch(plan: PathMapping.Plan, other: PathMapping.Plan, codec: Codec)
    requires Faithful(codec) && PathMapping.Accepted(plan) && Reordering(plan, other)
    ensures var actual, expected := codec.encode(ConfigurationOf(other)), codec.encode(ConfigurationOf(plan));
      Differences(actual, expected, codec) == Some([]) <==>
      ConfigurationOf(other) == ConfigurationOf(plan) || WorkspacesRecognised(plan)
    ensures PathMapping.PlannedGuests(plan) ==> WorkspacesRecognised(plan)
  {
    RenderedWellMappedIff(plan);
    WorkspacesPermute(other.workspaces, plan.workspaces);
    ListedSplit(plan);
    ListedSplit(other);
    assert SameLaunch(ConfigurationOf(other), ConfigurationOf(plan));
    RenderedNoDifferenceIff(codec.encode(ConfigurationOf(other)), plan, codec);
    assert codec.decode(codec.encode(ConfigurationOf(other))) == Some(ConfigurationOf(other));
    assert codec.decode(codec.encode(ConfigurationOf(plan))) == Some(ConfigurationOf(plan));
    if PathMapping.PlannedGuests(plan) {
      RenderedWellMapped(plan);
    }
  }
}
