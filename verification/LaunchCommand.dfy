/** The logon command (config.go): a shell, a script and the shared folders, with two audio selections. They are masked
    before two commands are compared (config_difference.go): with equal selections, equal masked commands are equal
    commands. */
module LaunchCommand {
  import opened Common
  import opened Search

  const PLAYBACK := "AudioPlayback"
  const INPUT := "AudioInput"

  function Quoted(parameter: string, selection: string): string {
    "'-" + parameter + "','" + selection + "'"
  }

  function Choice(enabled: bool): string {
    if enabled then "Enabled" else "Disabled"
  }

  const MASK := "<selection>"

  // ---------------------------------------------------------------- the operations

  predicate Contains(text: string, pattern: string) {
    Index(text, pattern) >= 0
  }

  /** wsbAudioSelection. */
  function AudioSelection(command: string, parameter: string): Option<bool> {
    if Contains(command, Quoted(parameter, "Enabled")) then Some(true)
    else if Contains(command, Quoted(parameter, "Disabled")) then Some(false)
    else None
  }

  function Masked(command: string, parameter: string): string {
    ReplaceAll(
      ReplaceAll(command, Quoted(parameter, "Enabled"), Quoted(parameter, MASK)),
      Quoted(parameter, "Disabled"), Quoted(parameter, MASK))
  }

  function Normalised(command: string): string {
    Masked(Masked(command, PLAYBACK), INPUT)
  }

  method NormaliseAudioSelections(command: string) returns (result: string)
    ensures result == Normalised(command)
  {
    result := command;
    var parameters, selections := [PLAYBACK, INPUT], ["Enabled", "Disabled"];
    for p := 0 to 2
      invariant result == if p == 0 then command else if p == 1 then Masked(command, PLAYBACK) else Normalised(command)
    {
      var before := result;
      for s := 0 to 2
        invariant result ==
          if s == 0 then before
          else if s == 1 then ReplaceAll(before, Quoted(parameters[p], "Enabled"), Quoted(parameters[p], MASK))
          else Masked(before, parameters[p])
      {
        result := ReplaceAll(result, Quoted(parameters[p], selections[s]), Quoted(parameters[p], MASK));
      }
    }
  }

  const SHELL := "powershell.exe -NoLogo" + " -NoProfile -NonInteractive"
  const COMMAND := " -ExecutionPolicy Bypass" + " -Command \""
  const START_PROCESS := "Start-Process -FilePath" + " 'powershell.exe'"
  const WINDOW := " -WindowStyle Normal -Wait"
  const ARGUMENT_LIST := " -ArgumentList @("
  const FLAGS := "'-NoLogo','-NoProfile'," + "'-NoExit',"
  const POLICY := "'-ExecutionPolicy','Bypass',"
  const SCRIPT := "'-File','C:\\SandboxBootstrap" + "\\bootstrap.ps1',"
  const INPUT_FOLDER := "'-InputDirectory'," + "'C:\\SandboxBootstrap',"
  const STATUS_FOLDER := "'-StatusDirectory'," + "'C:\\SandboxStatus',"
  const CLOSE := ")\""

  const LAUNCHER := SHELL + COMMAND + START_PROCESS + WINDOW
  const ARGUMENTS := FLAGS + POLICY + SCRIPT + INPUT_FOLDER + STATUS_FOLDER
  const PREFIX := LAUNCHER + ARGUMENT_LIST + ARGUMENTS

  /** A command with its two selections in place. */
  function Filled(prefix: string, playback: string, input: string): string {
    prefix + Quoted(PLAYBACK, playback) + "," + Quoted(INPUT, input) + CLOSE
  }

  /** The logon command of a rendered configuration. */
  function LogonCommand(audioOutput: bool, audioInput: bool): string {
    Filled(PREFIX, Choice(audioOutput), Choice(audioInput))
  }

  // ---------------------------------------------------------------- where the patterns are

  predicate Plain(text: string) {
    'A' !in text && 'k' !in text && '<' !in text
  }

  lemma PlainConcat(left: string, right: string)
    requires Plain(left) && Plain(right)
    ensures Plain(left + right)
  {
  }

  lemma LauncherPlain()
    ensures Plain(LAUNCHER) && Plain(CLOSE)
  {
    ShellPlain();
    CommandPlain();
    StartProcessPlain();
    WindowPlain();
    PlainConcat(SHELL, COMMAND);
    PlainConcat(SHELL + COMMAND, START_PROCESS);
    PlainConcat(SHELL + COMMAND + START_PROCESS, WINDOW);
  }

  lemma ShellPlain()
    ensures Plain(SHELL)
  {
    assert Plain("powershell.exe -NoLogo") && Plain(" -NoProfile -NonInteractive");
  }

  lemma WindowPlain()
    ensures Plain(WINDOW)
  {
  }

  lemma CommandPlain()
    ensures Plain(COMMAND)
  {
    assert Plain(" -ExecutionPolicy Bypass") && Plain(" -Command \"");
  }

  lemma StartProcessPlain()
    ensures Plain(START_PROCESS)
  {
    assert Plain("Start-Process -FilePath") && Plain(" 'powershell.exe'");
  }

  lemma FlagsPlain()
    ensures Plain(FLAGS)
  {
    assert Plain("'-NoLogo','-NoProfile',") && Plain("'-NoExit',");
  }

  lemma PolicyPlain()
    ensures Plain(POLICY)
  {
  }

  lemma ScriptPlain()
    ensures Plain(SCRIPT)
  {
    assert Plain("'-File','C:\\SandboxBootstrap") && Plain("\\bootstrap.ps1',");
  }

  lemma InputFolderPlain()
    ensures Plain(INPUT_FOLDER)
  {
    assert Plain("'-InputDirectory',") && Plain("'C:\\SandboxBootstrap',");
  }

  lemma StatusFolderPlain()
    ensures Plain(STATUS_FOLDER)
  {
    assert Plain("'-StatusDirectory',") && Plain("'C:\\SandboxStatus',");
  }

  lemma ArgumentsPlain()
    ensures Plain(ARGUMENTS)
  {
    FlagsPlain();
    PolicyPlain();
    ScriptPlain();
    InputFolderPlain();
    StatusFolderPlain();
  }

  /** The name of the list of arguments has the only 'A' before the selections. */
  lemma ArgumentListChars(k: nat)
    requires k < |ARGUMENT_LIST|
    ensures |ARGUMENT_LIST| == 17 && ARGUMENT_LIST[3] == 'r'
    ensures ARGUMENT_LIST[k] != 'k' && ARGUMENT_LIST[k] != '<' && (ARGUMENT_LIST[k] == 'A' <==> k == 2)
  {
  }

  predicate Selection(text: string) {
    text == "Enabled" || text == "Disabled" || text == MASK
  }

  /** A pattern: the only hyphen is its second character, and what tells it from the others. */
  lemma PlaybackPattern(selection: string)
    requires Selection(selection)
    ensures var q := Quoted(PLAYBACK, selection);
      && |q| == |selection| + 19 && q[0] == '\'' && q[1] == '-' && q[2] == 'A' && q[3] == 'u' && q[7] == 'P'
      && q[11] == 'b' && q[14] == 'k' && q[18] == selection[0] && q[|q| - 1] == '\''
  {
  }

  lemma InputPattern(selection: string)
    requires Selection(selection)
    ensures var q := Quoted(INPUT, selection);
      && |q| == |selection| + 16 && q[0] == '\'' && q[1] == '-' && q[2] == 'A' && q[3] == 'u' && q[7] == 'I'
      && q[11] == 't' && q[15] == selection[0] && q[|q| - 1] == '\''
  {
  }

  lemma SelectionChars(selection: string)
    requires Selection(selection)
    ensures selection != "" && '-' !in selection && 'A' !in selection && 'k' !in selection
    ensures selection[0] == (if selection == "Enabled" then 'E' else if selection == "Disabled" then 'D' else '<')
    ensures forall k :: 0 <= k < |selection| ==> (selection[k] == '<' <==> selection == MASK && k == 0)
  {
  }

  /** Where the telling characters stand in a pattern. */
  lemma QuotedChars(parameter: string, selection: string, k: nat)
    requires Selection(selection) && (parameter == PLAYBACK || parameter == INPUT) && k < |Quoted(parameter, selection)|
    ensures var c := Quoted(parameter, selection)[k];
      && (c == '-' <==> k == 1) && (c == 'A' <==> k == 2) && (c == 'k' <==> parameter == PLAYBACK && k == 14)
      && (c == '<' <==> selection == MASK && k == |parameter| + 5)
  {
    SelectionChars(selection);
    ParameterChars(parameter);
    var q := Quoted(parameter, selection);
    var n := |parameter|;
    if 2 <= k < n + 2 {
      assert q[k] == parameter[k - 2];
    } else if n + 2 <= k < n + 5 {
      assert q[k] == "','"[k - n - 2];
    } else if n + 5 <= k < |q| - 1 {
      assert q[k] == selection[k - n - 5];
    }
  }

  lemma ParameterChars(parameter: string)
    requires parameter == PLAYBACK || parameter == INPUT
    ensures |parameter| == if parameter == PLAYBACK then 13 else 10
    ensures '<' !in parameter && '-' !in parameter
    ensures forall k :: 0 <= k < |parameter| ==> (parameter[k] == 'k' <==> k == 12) && (parameter[k] == 'A' <==> k == 0)
  {
    assert PLAYBACK[12] == 'k';
  }

  lemma ParameterCounts(parameter: string)
    requires parameter == PLAYBACK || parameter == INPUT
    ensures CharCount(parameter, 'k') == (if parameter == PLAYBACK then 1 else 0) && CharCount(parameter, '<') == 0
  {
    ParameterChars(parameter);
    CharCountAt(parameter, '<', -1);
    CharCountAt(parameter, 'k', 12);
  }

  lemma SelectionCounts(selection: string)
    requires Selection(selection)
    ensures CharCount(selection, 'k') == 0 && CharCount(selection, '<') == if selection == MASK then 1 else 0
  {
    SelectionChars(selection);
    CharCountAt(selection, 'k', -1);
    CharCountAt(selection, '<', if selection == MASK then 0 else -1);
  }

  lemma MarkCounts(parameter: string, selection: string)
    requires Selection(selection) && (parameter == PLAYBACK || parameter == INPUT)
    ensures CharCount(Quoted(parameter, selection), 'k') == if parameter == PLAYBACK then 1 else 0
    ensures CharCount(Quoted(parameter, selection), '<') == if selection == MASK then 1 else 0
  {
    PieceCounts(parameter, selection, 'k');
    PieceCounts(parameter, selection, '<');
    ParameterCounts(parameter);
    SelectionCounts(selection);
  }

  lemma PieceCounts(parameter: string, selection: string, c: char)
    requires c == 'k' || c == '<'
    ensures CharCount(Quoted(parameter, selection), c) == CharCount(parameter, c) + CharCount(selection, c)
  {
    CharCountConcat("'-" + parameter + "','" + selection, "'", c);
    CharCountConcat("'-" + parameter + "','", selection, c);
    CharCountConcat("'-" + parameter, "','", c);
    CharCountConcat("'-", parameter, c);
    CharCountNone("'-", c);
    CharCountNone("','", c);
    CharCountNone("'", c);
  }

  // ---------------------------------------------------------------- the logon command's patterns

  /** What matters of the text before the selections: none of the telling characters but one 'A', before an 'r'. */
  ghost predicate Frame(prefix: string, a: int) {
    && 0 <= a && a + 1 < |prefix| && prefix[a + 1] == 'r'
    && forall k :: 0 <= k < |prefix| ==> prefix[k] != 'k' && prefix[k] != '<' && (prefix[k] == 'A' <==> k == a)
  }

  lemma FrameOfPlain(before: string, after: string, prefix: string)
    requires Plain(before) && Plain(after) && prefix == before + ARGUMENT_LIST + after
    ensures Frame(prefix, |before| + 2)
  {
    var n, m := |before|, |before| + |ARGUMENT_LIST|;
    ArgumentListChars(3);
    assert prefix[n + 3] == ARGUMENT_LIST[3];
    forall k | 0 <= k < |prefix|
      ensures prefix[k] != 'k' && prefix[k] != '<' && (prefix[k] == 'A' <==> k == n + 2)
    {
      if k < n {
        assert prefix[k] == before[k];
      } else if k < m {
        ArgumentListChars(k - n);
        assert prefix[k] == ARGUMENT_LIST[k - n];
      } else {
        assert prefix[k] == after[k - m];
      }
    }
  }

  lemma PrefixFrame()
    ensures Frame(PREFIX, |LAUNCHER| + 2)
  {
    LauncherPlain();
    ArgumentsPlain();
    FrameOfPlain(LAUNCHER, ARGUMENTS, PREFIX);
  }

  /** Where the input selection starts. */
  function InputAt(prefix: string, playback: string): nat {
    |prefix| + |Quoted(PLAYBACK, playback)| + 1
  }

  /** The characters of a filled command, piece by piece. */
  lemma FilledPieces(prefix: string, playback: string, input: string, k: nat)
    requires k < |Filled(prefix, playback, input)|
    ensures var text := Filled(prefix, playback, input);
      var p, i, at := Quoted(PLAYBACK, playback), Quoted(INPUT, input), InputAt(prefix, playback);
      && |text| == at + |i| + 2
      && text[k] ==
        if k < |prefix| then prefix[k]
        else if k < |prefix| + |p| then p[k - |prefix|]
        else if k < at then ','
        else if k < at + |i| then i[k - at]
        else CLOSE[k - at - |i|]
  {
  }

  /** Where a filled command can have the marking characters. */
  predicate MarksOnly(prefix: string, a: int, playback: string, input: string, k: nat, c: char) {
    var at := InputAt(prefix, playback);
    && (c == 'A' ==> k == a || k == |prefix| + 2 || k == at + 2)
    && (c == 'k' <==> k == |prefix| + 14)
    && (c == '<' <==> (playback == MASK && k == |prefix| + 18) || (input == MASK && k == at + 15))
  }

  lemma FilledChars(prefix: string, a: int, playback: string, input: string, k: nat)
    requires Frame(prefix, a) && Selection(playback) && Selection(input) && k < |Filled(prefix, playback, input)|
    ensures MarksOnly(prefix, a, playback, input, k, Filled(prefix, playback, input)[k])
  {
    var at := InputAt(prefix, playback);
    FilledPieces(prefix, playback, input, k);
    PlaybackPattern(playback);
    InputPattern(input);
    if |prefix| <= k < at - 1 {
      PlaybackMarks(prefix, a, playback, input, k);
    } else if at <= k < at + |Quoted(INPUT, input)| {
      InputMarks(prefix, a, playback, input, k);
    }
  }

  lemma PlaybackMarks(prefix: string, a: int, playback: string, input: string, k: nat)
    requires Frame(prefix, a) && Selection(playback) && Selection(input)
    requires |prefix| <= k < |prefix| + |Quoted(PLAYBACK, playback)|
    ensures MarksOnly(prefix, a, playback, input, k, Quoted(PLAYBACK, playback)[k - |prefix|])
  {
    PlaybackPattern(playback);
    ParameterChars(PLAYBACK);
    QuotedChars(PLAYBACK, playback, k - |prefix|);
  }

  lemma InputMarks(prefix: string, a: int, playback: string, input: string, k: nat)
    requires Frame(prefix, a) && Selection(playback) && Selection(input)
    requires InputAt(prefix, playback) <= k < InputAt(prefix, playback) + |Quoted(INPUT, input)|
    ensures MarksOnly(prefix, a, playback, input, k, Quoted(INPUT, input)[k - InputAt(prefix, playback)])
  {
    PlaybackPattern(playback);
    ParameterChars(INPUT);
    QuotedChars(INPUT, input, k - InputAt(prefix, playback));
  }

  lemma FilledFixed(prefix: string, a: int, playback: string, input: string)
    requires Frame(prefix, a) && Selection(playback) && Selection(input)
    ensures var text, at := Filled(prefix, playback, input), InputAt(prefix, playback);
      && at == |prefix| + |playback| + 20 && |text| == at + |input| + 18
      && text[a + 1] == 'r' && text[|prefix| + 7] == 'P' && text[|prefix| + 18] == playback[0]
      && text[at + 7] == 'I' && text[at + 15] == input[0]
  {
    PlaybackPattern(playback);
    InputPattern(input);
    var at := InputAt(prefix, playback);
    FilledPieces(prefix, playback, input, a + 1);
    FilledPieces(prefix, playback, input, |prefix| + 7);
    FilledPieces(prefix, playback, input, |prefix| + 18);
    FilledPieces(prefix, playback, input, at + 7);
    FilledPieces(prefix, playback, input, at + 15);
  }

  lemma MatchPlaces(prefix: string, a: int, playback: string, input: string, q: string, i: int)
    requires Frame(prefix, a) && Selection(playback) && Selection(input)
    requires MatchAt(Filled(prefix, playback, input), q, i) && |q| > 3 && q[2] == 'A' && q[3] == 'u'
    ensures i == |prefix| || i == InputAt(prefix, playback)
  {
    MatchChar(Filled(prefix, playback, input), q, i, 2);
    MatchChar(Filled(prefix, playback, input), q, i, 3);
    FilledChars(prefix, a, playback, input, i + 2);
    FilledFixed(prefix, a, playback, input);
  }

  lemma PlaybackMatches(prefix: string, a: int, playback: string, input: string, selection: string, i: int)
    requires Frame(prefix, a) && Selection(playback) && Selection(input) && Selection(selection)
    requires MatchAt(Filled(prefix, playback, input), Quoted(PLAYBACK, selection), i)
    ensures i == |prefix| && selection == playback
  {
    PlaybackPattern(selection);
    MatchPlaces(prefix, a, playback, input, Quoted(PLAYBACK, selection), i);
    MatchChar(Filled(prefix, playback, input), Quoted(PLAYBACK, selection), i, 7);
    MatchChar(Filled(prefix, playback, input), Quoted(PLAYBACK, selection), i, 18);
    FilledFixed(prefix, a, playback, input);
    SameSelection(selection, playback);
  }

  lemma InputMatches(prefix: string, a: int, playback: string, input: string, selection: string, i: int)
    requires Frame(prefix, a) && Selection(playback) && Selection(input) && Selection(selection)
    requires MatchAt(Filled(prefix, playback, input), Quoted(INPUT, selection), i)
    ensures i == InputAt(prefix, playback) && selection == input
  {
    InputPattern(selection);
    MatchPlaces(prefix, a, playback, input, Quoted(INPUT, selection), i);
    MatchChar(Filled(prefix, playback, input), Quoted(INPUT, selection), i, 7);
    MatchChar(Filled(prefix, playback, input), Quoted(INPUT, selection), i, 15);
    FilledFixed(prefix, a, playback, input);
    SameSelection(selection, input);
  }

  lemma SameSelection(left: string, right: string)
    requires Selection(left) && Selection(right)
    ensures left != "" && right != "" && (left[0] == right[0] <==> left == right)
  {
    SelectionChars(left);
    SelectionChars(right);
  }

  lemma FilledHas(prefix: string, playback: string, input: string)
    ensures var text := Filled(prefix, playback, input);
      && MatchAt(text, Quoted(PLAYBACK, playback), |prefix|)
      && MatchAt(text, Quoted(INPUT, input), InputAt(prefix, playback))
  {
    var text, p, i := Filled(prefix, playback, input), Quoted(PLAYBACK, playback), Quoted(INPUT, input);
    var at := InputAt(prefix, playback);
    assert text[|prefix|..|prefix| + |p|] == p;
    assert text[at..at + |i|] == i;
  }

  lemma FilledCounts(prefix: string, a: int, playback: string, input: string, selection: string)
    requires Frame(prefix, a) && Selection(playback) && Selection(input) && Selection(selection)
    ensures Count(Filled(prefix, playback, input), Quoted(PLAYBACK, selection)) ==
      if selection == playback then 1 else 0
    ensures Count(Filled(prefix, playback, input), Quoted(INPUT, selection)) == if selection == input then 1 else 0
  {
    var text := Filled(prefix, playback, input);
    FilledHas(prefix, playback, input);
    forall i | MatchAt(text, Quoted(PLAYBACK, selection), i) ensures i == |prefix| && selection == playback {
      PlaybackMatches(prefix, a, playback, input, selection, i);
    }
    forall i | MatchAt(text, Quoted(INPUT, selection), i) ensures i == InputAt(prefix, playback) && selection == input {
      InputMatches(prefix, a, playback, input, selection, i);
    }
    if selection == playback {
      CountOnly(text, Quoted(PLAYBACK, selection), |prefix|);
    } else {
      CountPositive(text, Quoted(PLAYBACK, selection));
    }
    if selection == input {
      CountOnly(text, Quoted(INPUT, selection), InputAt(prefix, playback));
    } else {
      CountPositive(text, Quoted(INPUT, selection));
    }
  }

  lemma SameSplit(text: string, left: string, right: string, left': string, right': string, pattern: string)
    requires text == left + pattern + right == left' + pattern + right' && |left| == |left'|
    ensures left == left' && right == right'
  {
    assert left == text[..|left|] == left';
    assert right == text[|left| + |pattern|..] == right';
  }

  lemma MatchBetween(left: string, pattern: string, right: string)
    ensures MatchAt(left + pattern + right, pattern, |left|)
  {
    assert (left + pattern + right)[|left|..|left| + |pattern|] == pattern;
  }

  /** What follows the playback selection. */
  function Rest(input: string): string {
    "," + Quoted(INPUT, input) + CLOSE
  }

  lemma FilledSplit(prefix: string, playback: string, input: string, q: string)
    requires q == Quoted(PLAYBACK, playback)
    ensures Filled(prefix, playback, input) == prefix + q + Rest(input)
  {
    var i := Quoted(INPUT, input);
    assert prefix + q + "," + i + CLOSE == prefix + q + ("," + i + CLOSE);
  }

  lemma MaskPlayback(prefix: string, a: int, playback: string, input: string, selection: string)
    requires Frame(prefix, a) && Selection(playback) && Selection(input) && Selection(selection)
    ensures ReplaceAll(Filled(prefix, playback, input), Quoted(PLAYBACK, selection), Quoted(PLAYBACK, MASK))
         == Filled(prefix, if selection == playback then MASK else playback, input)
  {
    var text, q, mask := Filled(prefix, playback, input), Quoted(PLAYBACK, selection), Quoted(PLAYBACK, MASK);
    FilledCounts(prefix, a, playback, input, selection);
    if selection == playback {
      var left, right := ReplaceOnly(text, q, mask);
      MatchBetween(left, q, right);
      PlaybackMatches(prefix, a, playback, input, selection, |left|);
      FilledSplit(prefix, playback, input, q);
      SameSplit(text, left, right, prefix, Rest(input), q);
      FilledSplit(prefix, MASK, input, mask);
    } else {
      ReplaceAllNone(text, q, mask);
    }
  }

  lemma MaskInput(prefix: string, a: int, playback: string, input: string, selection: string)
    requires Frame(prefix, a) && Selection(playback) && Selection(input) && Selection(selection)
    ensures ReplaceAll(Filled(prefix, playback, input), Quoted(INPUT, selection), Quoted(INPUT, MASK))
         == Filled(prefix, playback, if selection == input then MASK else input)
  {
    var text, q, mask := Filled(prefix, playback, input), Quoted(INPUT, selection), Quoted(INPUT, MASK);
    FilledCounts(prefix, a, playback, input, selection);
    if selection == input {
      var left, right := ReplaceOnly(text, q, mask);
      MatchBetween(left, q, right);
      InputMatches(prefix, a, playback, input, selection, |left|);
      SameSplit(text, left, right, prefix + Quoted(PLAYBACK, playback) + ",", CLOSE, q);
    } else {
      ReplaceAllNone(text, q, mask);
    }
  }

  lemma ChoiceSelects(enabled: bool)
    ensures Selection(Choice(enabled)) && Choice(enabled) != MASK && |Choice(enabled)| == if enabled then 7 else 8
    ensures |MASK| == 11 && Selection(MASK)
  {
  }

  /** Masking a filled command. */
  lemma NormalisedFilled(prefix: string, a: int, audioOutput: bool, audioInput: bool)
    requires Frame(prefix, a)
    ensures Normalised(Filled(prefix, Choice(audioOutput), Choice(audioInput))) == Filled(prefix, MASK, MASK)
  {
    ChoiceSelects(audioOutput);
    ChoiceSelects(audioInput);
    var x, y := Choice(audioOutput), Choice(audioInput);
    MaskPlayback(prefix, a, x, y, "Enabled");
    MaskPlayback(prefix, a, if x == "Enabled" then MASK else x, y, "Disabled");
    MaskInput(prefix, a, MASK, y, "Enabled");
    MaskInput(prefix, a, MASK, if y == "Enabled" then MASK else y, "Disabled");
  }

  lemma ContainsCounts(text: string, pattern: string)
    requires pattern != ""
    ensures Contains(text, pattern) <==> Count(text, pattern) > 0
  {
    IndexIsFirst(text, pattern);
    CountPositive(text, pattern);
  }

  /** The selections read back from a filled command. */
  lemma FilledSelections(prefix: string, a: int, audioOutput: bool, audioInput: bool)
    requires Frame(prefix, a)
    ensures var text := Filled(prefix, Choice(audioOutput), Choice(audioInput));
      AudioSelection(text, PLAYBACK) == Some(audioOutput) && AudioSelection(text, INPUT) == Some(audioInput)
  {
    var text := Filled(prefix, Choice(audioOutput), Choice(audioInput));
    ChoiceSelects(audioOutput);
    ChoiceSelects(audioInput);
    FilledCounts(prefix, a, Choice(audioOutput), Choice(audioInput), "Enabled");
    FilledCounts(prefix, a, Choice(audioOutput), Choice(audioInput), "Disabled");
    ContainsCounts(text, Quoted(PLAYBACK, "Enabled"));
    ContainsCounts(text, Quoted(PLAYBACK, "Disabled"));
    ContainsCounts(text, Quoted(INPUT, "Enabled"));
    ContainsCounts(text, Quoted(INPUT, "Disabled"));
  }

  // ---------------------------------------------------------------- any command with the same mask

  /** Two different patterns share at most a quote at their ends. */
  lemma PatternsApart(text: string, p: string, q: string, at: int, i: int)
    requires MatchAt(text, p, at) && MatchAt(text, q, i) && |p| > 2 && |q| > 2
    requires forall k :: 0 <= k < |p| ==> (p[k] == '-' <==> k == 1)
    requires forall k :: 0 <= k < |q| ==> (q[k] == '-' <==> k == 1)
    requires exists k :: 0 <= k < |p| && k < |q| && p[k] != q[k]
    ensures i + |q| <= at + 1 || i >= at + |p| - 1
  {
    MatchChar(text, p, at, 1);
    MatchChar(text, q, i, 1);
    var k :| 0 <= k < |p| && k < |q| && p[k] != q[k];
    MatchChar(text, p, at, k);
    MatchChar(text, q, i, k);
    assert i != at;
    if at < i < at + |p| - 1 {
      MatchChar(text, p, at, i + 1 - at);
    } else if i < at < i + |q| - 1 {
      MatchChar(text, q, i, at + 1 - i);
    }
  }

  /** So replacing one pattern leaves a match of the other. */
  lemma MatchSurvives(left: string, p: string, r: string, right: string, q: string, i: int) returns (i': int)
    requires p != "" && r != "" && p[0] == r[0] && p[|p| - 1] == r[|r| - 1]
    requires MatchAt(left + p + right, q, i) && q != ""
    requires i + |q| <= |left| + 1 || i >= |left| + |p| - 1
    ensures MatchAt(left + r + right, q, i')
  {
    if i + |q| <= |left| + 1 {
      var head := left + [p[0]];
      assert left + p + right == head + (p[1..] + right);
      assert left + r + right == head + (r[1..] + right);
      MatchInHead(head, p[1..] + right, q, i);
      MatchInHead(head, r[1..] + right, q, i);
      i' := i;
    } else {
      var tail := [p[|p| - 1]] + right;
      var before, after := left + p[..|p| - 1], left + r[..|r| - 1];
      assert left + p + right == before + tail;
      assert left + r + right == after + tail;
      MatchInTail(before, tail, q, i);
      i' := i - |before| + |after|;
      MatchInTail(after, tail, q, i');
    }
  }

  lemma NoOther(command: string, left: string, right: string)
    requires command == left + Quoted(PLAYBACK, MASK) + right && CharCount(command, 'k') == 1
    ensures Count(command, Quoted(PLAYBACK, "Disabled")) == 0
  {
    var mask, q := Quoted(PLAYBACK, MASK), Quoted(PLAYBACK, "Disabled");
    PlaybackPattern(MASK);
    PlaybackPattern("Disabled");
    MatchBetween(left, mask, right);
    MatchChar(command, mask, |left|, 14);
    MatchChar(command, mask, |left|, 18);
    CountPositive(command, q);
    forall i ensures !MatchAt(command, q, i) {
      if MatchAt(command, q, i) {
        MatchChar(command, q, i, 14);
        CharCountOnce(command, 'k', i + 14, |left| + 14);
        MatchChar(command, q, i, 18);
      }
    }
  }

  lemma CountOneOfMark(command: string, selection: string)
    requires Selection(selection) && CharCount(command, 'k') == 1 && Contains(command, Quoted(PLAYBACK, selection))
    ensures Count(command, Quoted(PLAYBACK, selection)) == 1
  {
    MarkCounts(PLAYBACK, selection);
    CountAtMost(command, Quoted(PLAYBACK, selection), 'k');
    ContainsCounts(command, Quoted(PLAYBACK, selection));
  }

  lemma KeepsMark(command: string, selection: string, parameter: string)
    requires Selection(selection) && selection != MASK && (parameter == PLAYBACK || parameter == INPUT)
    ensures CharCount(ReplaceAll(command, Quoted(parameter, selection), Quoted(parameter, MASK)), 'k') ==
      CharCount(command, 'k')
    ensures CharCount(ReplaceAll(command, Quoted(parameter, selection), Quoted(parameter, MASK)), '<')
         == CharCount(command, '<') + Count(command, Quoted(parameter, selection))
  {
    MarkCounts(parameter, selection);
    MarkCounts(parameter, MASK);
    ReplaceAllCounts(command, Quoted(parameter, selection), Quoted(parameter, MASK), 'k', 0);
    ReplaceAllCounts(command, Quoted(parameter, selection), Quoted(parameter, MASK), '<', 1);
  }

  /** A command with one 'k' has its playback selection masked once. */
  lemma PlaybackMaskedOnce(command: string, enabled: bool) returns (left: string, right: string)
    requires CharCount(command, 'k') == 1 && AudioSelection(command, PLAYBACK) == Some(enabled)
    ensures command == left + Quoted(PLAYBACK, Choice(enabled)) + right
    ensures Masked(command, PLAYBACK) == left + Quoted(PLAYBACK, MASK) + right
  {
    var q, mask := Quoted(PLAYBACK, Choice(enabled)), Quoted(PLAYBACK, MASK);
    ChoiceSelects(enabled);
    CountOneOfMark(command, Choice(enabled));
    left, right := ReplaceOnly(command, q, mask);
    if enabled {
      KeepsMark(command, "Enabled", PLAYBACK);
      NoOther(left + mask + right, left, right);
      ReplaceAllNone(left + mask + right, Quoted(PLAYBACK, "Disabled"), mask);
    } else {
      ContainsCounts(command, Quoted(PLAYBACK, "Enabled"));
      ReplaceAllNone(command, Quoted(PLAYBACK, "Enabled"), mask);
    }
  }

  lemma PatternHyphens(parameter: string, selection: string)
    requires Selection(selection) && (parameter == PLAYBACK || parameter == INPUT)
    ensures |Quoted(parameter, selection)| > 2
    ensures forall k :: 0 <= k < |Quoted(parameter, selection)| ==> (Quoted(parameter, selection)[k] == '-' <==> k == 1)
  {
    forall k | 0 <= k < |Quoted(parameter, selection)|
      ensures Quoted(parameter, selection)[k] == '-' <==> k == 1
    {
      QuotedChars(parameter, selection, k);
    }
  }

  /** The input selection is still there after the playback one has been masked. */
  lemma InputSurvivesPlayback(left: string, right: string, playback: string, input: string)
    requires Selection(playback) && Selection(input)
    requires Contains(left + Quoted(PLAYBACK, playback) + right, Quoted(INPUT, input))
    ensures Count(left + Quoted(PLAYBACK, MASK) + right, Quoted(INPUT, input)) > 0
  {
    var p, r, q := Quoted(PLAYBACK, playback), Quoted(PLAYBACK, MASK), Quoted(INPUT, input);
    PlaybackPattern(playback);
    PlaybackPattern(MASK);
    InputPattern(input);
    PatternHyphens(PLAYBACK, playback);
    PatternHyphens(INPUT, input);
    IndexIsFirst(left + p + right, q);
    var i := Index(left + p + right, q);
    MatchBetween(left, p, right);
    assert p[7] != q[7];
    PatternsApart(left + p + right, p, q, |left|, i);
    var i' := MatchSurvives(left, p, r, right, q, i);
    CountPositive(left + r + right, q);
  }

  /** And "Disabled" is still there after "Enabled" has been masked. */
  lemma DisabledSurvivesEnabled(left: string, right: string)
    requires Count(left + Quoted(INPUT, "Enabled") + right, Quoted(INPUT, "Disabled")) > 0
    ensures Count(left + Quoted(INPUT, MASK) + right, Quoted(INPUT, "Disabled")) > 0
  {
    var p, r, q := Quoted(INPUT, "Enabled"), Quoted(INPUT, MASK), Quoted(INPUT, "Disabled");
    InputPattern("Enabled");
    InputPattern("Disabled");
    InputPattern(MASK);
    PatternHyphens(INPUT, "Enabled");
    PatternHyphens(INPUT, "Disabled");
    CountPositive(left + p + right, q);
    var i :| MatchAt(left + p + right, q, i);
    MatchBetween(left, p, right);
    assert p[15] != q[15];
    PatternsApart(left + p + right, p, q, |left|, i);
    var i' := MatchSurvives(left, p, r, right, q, i);
    CountPositive(left + r + right, q);
  }

  /** When two marks are left in all and one was there before, one input selection has been masked. */
  lemma InputMaskedOnce(command: string, enabled: bool) returns (left: string, right: string)
    requires Count(command, Quoted(INPUT, Choice(enabled))) > 0
    requires CharCount(command, '<') >= 1 && CharCount(Masked(command, INPUT), '<') == 2
    ensures command == left + Quoted(INPUT, Choice(enabled)) + right
    ensures Masked(command, INPUT) == left + Quoted(INPUT, MASK) + right
  {
    var e, d, mask := Quoted(INPUT, "Enabled"), Quoted(INPUT, "Disabled"), Quoted(INPUT, MASK);
    var once := ReplaceAll(command, e, mask);
    KeepsMark(command, "Enabled", INPUT);
    KeepsMark(once, "Disabled", INPUT);
    if Count(command, e) == 1 {
      left, right := ReplaceOnly(command, e, mask);
      ReplaceAllNone(once, d, mask);
      if !enabled {
        DisabledSurvivesEnabled(left, right);
      }
    } else {
      ReplaceAllNone(command, e, mask);
      left, right := ReplaceOnly(command, d, mask);
    }
  }

  lemma MaskedMarks(prefix: string, a: int)
    requires Frame(prefix, a)
    ensures CharCount(Filled(prefix, MASK, MASK), 'k') == 1 && CharCount(Filled(prefix, MASK, MASK), '<') == 2
  {
    var text := Filled(prefix, MASK, MASK);
    ChoiceSelects(true);
    FilledFixed(prefix, a, MASK, MASK);
    forall k | 0 <= k < |text|
      ensures text[k] == 'k' <==> k == |prefix| + 14
      ensures text[k] == '<' <==> k == |prefix| + 18 || k == InputAt(prefix, MASK) + 15
    {
      FilledChars(prefix, a, MASK, MASK, k);
    }
    CharCountAt(text, 'k', |prefix| + 14);
    CharCountTwice(text, '<', |prefix| + 18, InputAt(prefix, MASK) + 15);
  }

  lemma NormalisedKeepsMark(command: string)
    ensures CharCount(Normalised(command), 'k') == CharCount(command, 'k')
  {
    var first := ReplaceAll(command, Quoted(PLAYBACK, "Enabled"), Quoted(PLAYBACK, MASK));
    var second := Masked(command, PLAYBACK);
    KeepsMark(command, "Enabled", PLAYBACK);
    KeepsMark(first, "Disabled", PLAYBACK);
    KeepsMark(second, "Enabled", INPUT);
    KeepsMark(ReplaceAll(second, Quoted(INPUT, "Enabled"), Quoted(INPUT, MASK)), "Disabled", INPUT);
  }

  lemma InputUnmasked(prefix: string, a: int, left: string, right: string, audioInput: bool)
    requires Frame(prefix, a) && left + Quoted(INPUT, MASK) + right == Filled(prefix, MASK, MASK)
    ensures left + Quoted(INPUT, Choice(audioInput)) + right == Filled(prefix, MASK, Choice(audioInput))
  {
    ChoiceSelects(audioInput);
    MatchBetween(left, Quoted(INPUT, MASK), right);
    InputMatches(prefix, a, MASK, MASK, MASK, |left|);
    var before, q := prefix + Quoted(PLAYBACK, MASK) + ",", Quoted(INPUT, MASK);
    SameSplit(left + q + right, left, right, before, CLOSE, q);
  }

  lemma PlaybackUnmasked(prefix: string, a: int, left: string, right: string, audioOutput: bool, audioInput: bool)
    requires Frame(prefix, a) && left + Quoted(PLAYBACK, MASK) + right == Filled(prefix, MASK, Choice(audioInput))
    ensures left + Quoted(PLAYBACK, Choice(audioOutput)) + right ==
      Filled(prefix, Choice(audioOutput), Choice(audioInput))
  {
    ChoiceSelects(audioInput);
    var mask, q := Quoted(PLAYBACK, MASK), Quoted(PLAYBACK, Choice(audioOutput));
    MatchBetween(left, mask, right);
    PlaybackMatches(prefix, a, MASK, Choice(audioInput), MASK, |left|);
    FilledSplit(prefix, MASK, Choice(audioInput), mask);
    SameSplit(left + mask + right, left, right, prefix, Rest(Choice(audioInput)), mask);
    FilledSplit(prefix, Choice(audioOutput), Choice(audioInput), q);
  }

  lemma MaskPresent(left: string, right: string)
    ensures CharCount(left + Quoted(PLAYBACK, MASK) + right, '<') >= 1
  {
    PlaybackPattern(MASK);
    CharCountSome(left + Quoted(PLAYBACK, MASK) + right, '<', |left| + 18);
  }

  lemma FilledRecovered(command: string, prefix: string, a: int, audioOutput: bool, audioInput: bool)
    requires Frame(prefix, a) && Normalised(command) == Filled(prefix, MASK, MASK)
    requires AudioSelection(command, PLAYBACK) == Some(audioOutput)
    requires AudioSelection(command, INPUT) == Some(audioInput)
    ensures command == Filled(prefix, Choice(audioOutput), Choice(audioInput))
  {
    MaskedMarks(prefix, a);
    NormalisedKeepsMark(command);
    ChoiceSelects(audioOutput);
    ChoiceSelects(audioInput);
    var left, right := PlaybackMaskedOnce(command, audioOutput);
    MaskPresent(left, right);
    InputSurvivesPlayback(left, right, Choice(audioOutput), Choice(audioInput));
    var left', right' := InputMaskedOnce(left + Quoted(PLAYBACK, MASK) + right, audioInput);
    InputUnmasked(prefix, a, left', right', audioInput);
    PlaybackUnmasked(prefix, a, left, right, audioOutput, audioInput);
  }

  /** A command is the expected logon command exactly when its masked form and both its selections are the expected
      ones. */
  lemma CommandRecovered(command: string, audioOutput: bool, audioInput: bool)
    ensures command == LogonCommand(audioOutput, audioInput) <==>
      && Normalised(command) == Normalised(LogonCommand(audioOutput, audioInput))
      && AudioSelection(command, PLAYBACK) == Some(audioOutput)
      && AudioSelection(command, INPUT) == Some(audioInput)
    ensures AudioSelection(LogonCommand(audioOutput, audioInput), PLAYBACK) == Some(audioOutput)
    ensures AudioSelection(LogonCommand(audioOutput, audioInput), INPUT) == Some(audioInput)
  {
    PrefixFrame();
    RecoveredIn(command, PREFIX, |LAUNCHER| + 2, audioOutput, audioInput);
  }

  lemma RecoveredIn(command: string, prefix: string, a: int, audioOutput: bool, audioInput: bool)
    requires Frame(prefix, a)
    ensures command == Filled(prefix, Choice(audioOutput), Choice(audioInput)) <==>
      && Normalised(command) == Normalised(Filled(prefix, Choice(audioOutput), Choice(audioInput)))
      && AudioSelection(command, PLAYBACK) == Some(audioOutput)
      && AudioSelection(command, INPUT) == Some(audioInput)
    ensures AudioSelection(Filled(prefix, Choice(audioOutput), Choice(audioInput)), PLAYBACK) == Some(audioOutput)
    ensures AudioSelection(Filled(prefix, Choice(audioOutput), Choice(audioInput)), INPUT) == Some(audioInput)
  {
    NormalisedFilled(prefix, a, audioOutput, audioInput);
    FilledSelections(prefix, a, audioOutput, audioInput);
    if Normalised(command) == Filled(prefix, MASK, MASK) &&
      AudioSelection(command, PLAYBACK) == Some(audioOutput) && AudioSelection(command, INPUT) == Some(audioInput)
    {
      FilledRecovered(command, prefix, a, audioOutput, audioInput);
    }
  }
}
