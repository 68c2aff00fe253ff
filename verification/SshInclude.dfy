/** The managed Include block in the user's SSH config (connection.go, and its removal in uninstall.go). */
module SshInclude {
  import opened Common
  import opened Search

  const TITLE := " herdr-sandbox" + " managed SSH include"
  const START := "# BEGIN" + TITLE
  const END := "# END" + TITLE

  datatype IncludeError = Malformed | WrongPath | TooLong | WriteFailed | KeptChanging

  function TrimPrefix(text: string, prefix: string): string {
    if prefix <= text then text[|prefix|..] else text
  }

  /** The configuration line for an already quoted path. */
  function Directive(quotedPath: string): string {
    "Include " + quotedPath
  }

  function Block(quotedPath: string): string {
    START + "\n" + Directive(quotedPath) + "\n" + END + "\n"
  }

  function Render(quotedPath: string, remaining: string): string {
    if remaining == "" then Block(quotedPath) else Block(quotedPath) + "\n" + remaining
  }

  /** The text after the managed block, without the line ending that belongs to the block. */
  function AfterBlock(rest: string): string {
    if "\r\n" <= rest then rest[2..] else TrimPrefix(rest, "\n")
  }

  function TrimBoundary(text: string): string {
    TrimPrefix(TrimPrefix(text, "\r\n"), "\n")
  }

  /** The text without its block of length `length` at `start`. */
  function CutOut(existing: string, start: nat, length: nat): string
    requires start + length <= |existing|
  {
    TrimBoundary(existing[..start] + AfterBlock(existing[start + length..]))
  }

  /** The user's own text: everything but the managed block. */
  function UserText(existing: string): Result<string, IncludeError> {
    var starts, ends := Count(existing, START), Count(existing, END);
    if starts != ends || starts > 1 then Err(Malformed)
    else if starts == 0 then Ok(existing)
    else
      IndexIsFirst(existing, START);
      CountPositive(existing, START);
      var start := Index(existing, START);
      IndexIsFirst(existing[start..], END);
      var endRelative := Index(existing[start..], END);
      if endRelative < 0 then Err(Malformed)
      else
        Ok(CutOut(existing, start, endRelative + |END|))
  }

  /** What updateManagedSSHInclude makes of a config. */
  function Updated(existing: string, quotedPath: string): Result<string, IncludeError> {
    var text := UserText(existing);
    if text.Err? then text else Ok(Render(quotedPath, text.value))
  }

  method RemoveBlock(existing: string, start: nat, length: nat) returns (remaining: string)
    requires start + length <= |existing|
    ensures remaining == CutOut(existing, start, length)
  {
    var end := start + length;
    if "\r\n" <= existing[end..] {
      end := end + 2;
    } else if "\n" <= existing[end..] {
      end := end + 1;
    }
    assert existing[end..] == AfterBlock(existing[start + length..]);
    remaining := existing[..start] + existing[end..];
    remaining := TrimPrefix(remaining, "\r\n");
    remaining := TrimPrefix(remaining, "\n");
  }

  method UpdateManagedInclude(existing: string, quotedPath: string) returns (result: Result<string, IncludeError>)
    ensures result == Updated(existing, quotedPath)
  {
    var startCount := Count(existing, START);
    var endCount := Count(existing, END);
    if startCount != endCount || startCount > 1 {
      return Err(Malformed);
    }
    var remaining := existing;
    if startCount == 1 {
      IndexIsFirst(existing, START);
      CountPositive(existing, START);
      var start := Index(existing, START);
      IndexIsFirst(existing[start..], END);
      var endRelative := Index(existing[start..], END);
      if endRelative < 0 {
        return Err(Malformed);
      }
      remaining := RemoveBlock(existing, start, endRelative + |END|);
    }
    assert UserText(existing) == Ok(remaining);
    var block := START + "\n" + ("Include " + quotedPath) + "\n" + END + "\n";
    if remaining == "" {
      return Ok(block);
    }
    return Ok(block + "\n" + remaining);
  }

  /** What removeManagedSSHInclude makes of a config: the rest of the text, and whether it changed. */
  function Removed(existing: string, quotedPath: string): Result<(string, bool), IncludeError> {
    var starts, ends := Count(existing, START), Count(existing, END);
    if starts == 0 && ends == 0 then Ok((existing, false))
    else if starts != 1 || ends != 1 || !(START <= existing) then Err(Malformed)
    else
      var afterStart := existing[|START|..];
      if !("\r\n" <= afterStart) && !("\n" <= afterStart) then Err(Malformed)
      else
        var ending := if "\r\n" <= afterStart then "\r\n" else "\n";
        var expected := START + ending + Directive(quotedPath) + ending + END;
        if !(expected <= existing) then Err(WrongPath)
        else
          var remaining := existing[|expected|..];
          if remaining == "" then Ok(("", true))
          else if !(ending <= remaining) then Err(Malformed)
          else Ok((TrimPrefix(remaining[|ending|..], ending), true))
  }

  // ---------------------------------------------------------------- the markers

  predicate Marked(text: string) {
    Count(text, START) > 0 || Count(text, END) > 0
  }

  lemma TitleIsOneLine()
    ensures '\n' !in TITLE
  {
    assert '\n' !in " herdr-sandbox";
    assert '\n' !in " managed SSH include";
  }

  lemma MarkersAreLines()
    ensures '\n' !in START && '\n' !in END && |START| == 41 && |END| == 39
    ensures START[0] == '#' && START[1] == ' ' && START[2] == 'B'
    ensures END[0] == '#' && END[1] == ' ' && END[2] == 'E'
  {
    TitleIsOneLine();
    assert '\n' !in "# BEGIN";
    assert '\n' !in "# END";
  }

  lemma CountSelf(pattern: string)
    requires pattern != ""
    ensures Count(pattern, pattern) == 1
  {
    assert MatchAt(pattern, pattern, 0);
    assert CountFrom(pattern, pattern, |pattern|) == 0;
  }

  lemma MarkerCounts()
    ensures Count(START, START) == 1 && Count(END, START) == 0
    ensures Count(START, END) == 0 && Count(END, END) == 1
  {
    MarkersAreLines();
    CountSelf(START);
    CountSelf(END);
    assert START[0..39][2] != END[2];
    assert START[1..40][0] != END[0];
    assert START[2..41][0] != END[0];
    assert CountFrom(START, END, 3) == 0;
    assert CountFrom(START, END, 2) == 0;
    assert CountFrom(START, END, 1) == 0;
  }

  lemma CountLine(line: string, rest: string, pattern: string)
    requires '\n' !in pattern && pattern != ""
    ensures Count(line + "\n" + rest, pattern) == Count(line, pattern) + Count(rest, pattern)
  {
    assert line + "\n" + rest == line + ['\n'] + rest;
    CountAcross(line, '\n', rest, pattern);
  }

  lemma RenderLines(quotedPath: string, remaining: string)
    ensures Render(quotedPath, remaining) ==
            START + "\n" + (Directive(quotedPath) + "\n" +
            (END + "\n" + (if remaining == "" then "" else "\n" + remaining)))
  {
    var tail := if remaining == "" then "" else "\n" + remaining;
    var first, second, third := START + "\n", Directive(quotedPath) + "\n", END + "\n";
    Associate(first, Directive(quotedPath), "\n");
    Associate(first + second, END, "\n");
    assert Block(quotedPath) == first + second + third;
    Associate(Block(quotedPath), "\n", remaining);
    assert Render(quotedPath, remaining) == Block(quotedPath) + tail;
    Associate(first + second, third, tail);
    Associate(first, second, third + tail);
  }

  lemma RenderCounts(quotedPath: string, remaining: string, pattern: string)
    requires '\n' !in pattern && pattern != ""
    ensures Count(Render(quotedPath, remaining), pattern)
         == Count(START, pattern) + Count(Directive(quotedPath), pattern) + Count(END, pattern) +
           Count(remaining, pattern)
  {
    RenderLines(quotedPath, remaining);
    var tail := if remaining == "" then "" else "\n" + remaining;
    CountLine(START, Directive(quotedPath) + "\n" + (END + "\n" + tail), pattern);
    CountLine(Directive(quotedPath), END + "\n" + tail, pattern);
    CountLine(END, tail, pattern);
    if remaining != "" {
      CountLine("", remaining, pattern);
      assert "" + "\n" + remaining == tail;
    }
  }

  // ---------------------------------------------------------------- rewriting a rendered text

  lemma NoMatchBefore(line: string, pattern: string, rest: string, i: int)
    requires '\n' !in pattern && pattern != "" && Count(line, pattern) == 0
    requires MatchAt(line + ['\n'] + rest, pattern, i)
    ensures i > |line|
  {
    MatchAcross(line, '\n', rest, pattern, i);
    if i + |pattern| <= |line| {
      Associate(line, ['\n'], rest);
      MatchInHead(line, ['\n'] + rest, pattern, i);
      CountPositive(line, pattern);
    }
  }

  lemma FirstMatchAfterLine(line: string, pattern: string, rest: string)
    requires '\n' !in pattern && pattern != "" && Count(line, pattern) == 0
    ensures Index(line + "\n" + pattern + rest, pattern) == |line| + 1
  {
    var text := line + "\n" + pattern + rest;
    Associate(line + "\n", pattern, rest);
    assert text[|line| + 1..|line| + 1 + |pattern|] == pattern;
    assert MatchAt(text, pattern, |line| + 1);
    IndexIsFirst(text, pattern);
    NoMatchBefore(line, pattern, pattern + rest, Index(text, pattern));
  }

  lemma FirstMatchAtStart(pattern: string, rest: string)
    ensures Index(pattern + rest, pattern) == 0
  {
    assert MatchAt(pattern + rest, pattern, 0);
  }

  /** The user's part of a rendered text is what was rendered, unless a third marker is in the way. */
  lemma UserTextOfRendered(quotedPath: string, remaining: string)
    ensures UserText(Render(quotedPath, remaining))
         == if Marked(Directive(quotedPath)) || Marked(remaining) then Err(Malformed) else Ok(remaining)
  {
    var text := Render(quotedPath, remaining);
    MarkersAreLines();
    MarkerCounts();
    RenderCounts(quotedPath, remaining, START);
    RenderCounts(quotedPath, remaining, END);
    if !Marked(Directive(quotedPath)) && !Marked(remaining) {
      UnmarkedRendering(quotedPath, remaining);
    }
  }

  /** Where the markers of a rendered text are, and what follows them. */
  lemma RenderedIndices(quotedPath: string, remaining: string)
    requires !Marked(Directive(quotedPath))
    ensures var text := Render(quotedPath, remaining);
      var end := |START| + 1 + |Directive(quotedPath)| + 1;
      && Index(text, START) == 0 && Index(text, END) == end && end + |END| <= |text|
      && text[end + |END|..] == "\n" + (if remaining == "" then "" else "\n" + remaining)
  {
    var text := Render(quotedPath, remaining);
    var tail := if remaining == "" then "" else "\n" + remaining;
    var head := START + "\n" + Directive(quotedPath);
    RenderLines(quotedPath, remaining);
    assert text == START + ("\n" + (Directive(quotedPath) + "\n" + (END + "\n" + tail)));
    FirstMatchAtStart(START, "\n" + (Directive(quotedPath) + "\n" + (END + "\n" + tail)));
    assert text == head + "\n" + END + ("\n" + tail);
    HeadUnmarked(quotedPath);
    FirstMatchAfterLine(head, END, "\n" + tail);
  }

  lemma HeadUnmarked(quotedPath: string)
    requires !Marked(Directive(quotedPath))
    ensures '\n' !in END && END != "" && Count(START + "\n" + Directive(quotedPath), END) == 0
  {
    MarkersAreLines();
    MarkerCounts();
    CountLine(START, Directive(quotedPath), END);
  }

  lemma UnmarkedRendering(quotedPath: string, remaining: string)
    requires !Marked(Directive(quotedPath)) && !Marked(remaining)
    requires Count(Render(quotedPath, remaining), START) == 1 == Count(Render(quotedPath, remaining), END)
    ensures UserText(Render(quotedPath, remaining)) == Ok(remaining)
  {
    var text := Render(quotedPath, remaining);
    var tail := if remaining == "" then "" else "\n" + remaining;
    var end := |START| + 1 + |Directive(quotedPath)| + 1 + |END|;
    RenderedIndices(quotedPath, remaining);
    assert text[0..] == text;
    AfterNewline(tail);
    assert text[..0] + tail == tail;
    UnmarkedTrim(remaining, tail);
    assert CutOut(text, 0, end) == remaining;
  }

  lemma AfterNewline(rest: string)
    ensures AfterBlock("\n" + rest) == rest
  {
    assert ("\n" + rest)[0] == '\n';
  }

  lemma UnmarkedTrim(remaining: string, tail: string)
    requires tail == if remaining == "" then "" else "\n" + remaining
    ensures TrimBoundary(tail) == remaining
  {
    if remaining != "" {
      assert tail[0] == '\n';
    }
  }

  /** Rewriting what the rewriter wrote: only the path changes, unless a marker stands in the user's text or path. */
  lemma RewriteOfRendered(quotedPath: string, remaining: string, nextPath: string)
    ensures Updated(Render(quotedPath, remaining), nextPath)
         == if Marked(Directive(quotedPath)) || Marked(remaining) then Err(Malformed)
            else Ok(Render(nextPath, remaining))
  {
    UserTextOfRendered(quotedPath, remaining);
  }

  /** A text without markers is kept byte for byte, after the block. */
  lemma UnmarkedTextKept(text: string, quotedPath: string)
    requires !Marked(text)
    ensures Updated(text, quotedPath).Ok?
    ensures var r := Updated(text, quotedPath).value;
      && Block(quotedPath) <= r && |text| <= |r| && r[|r| - |text|..] == text
      && |r| - |Block(quotedPath)| - |text| == (if text == "" then 0 else 1)
  {
  }

  /** Writing one path and then another is writing the second, exactly when the first can be found again. */
  lemma LastPathWins(text: string, first: string, second: string)
    requires !Marked(text)
    ensures Updated(text, first).Ok?
    ensures Updated(Updated(text, first).value, second) == Updated(text, second) <==> !Marked(Directive(first))
  {
    RewriteOfRendered(first, text, second);
  }

  // ---------------------------------------------------------------- removal undoes insertion

  lemma SamePrefix(first: string, second: string, rest: string, tail: string)
    requires '\n' !in first && '\n' !in second
    requires first + "\n" + tail <= second + "\n" + rest
    ensures first == second
  {
    var text := second + "\n" + rest;
    assert text[|first|] == '\n';
    assert text[|second|] == '\n';
    assert forall k :: 0 <= k < |second| ==> text[k] != '\n';
    assert forall k :: 0 <= k < |first| ==> text[k] == first[k] != '\n';
    assert first == text[..|first|] == text[..|second|] == second;
  }

  lemma RemovalFinds(quotedPath: string, text: string, other: string, expected: string)
    requires '\n' !in quotedPath && '\n' !in other
    requires expected == START + "\n" + Directive(other) + "\n" + END
    ensures expected <= Render(quotedPath, text) <==> quotedPath == other
    ensures quotedPath == other ==>
      Render(quotedPath, text)[|expected|..] == "\n" + (if text == "" then "" else "\n" + text)
  {
    var tail := if text == "" then "" else "\n" + text;
    RenderLines(quotedPath, text);
    OneLine(quotedPath);
    OneLine(other);
    BlockShared(START, Directive(quotedPath), Directive(other), END, tail);
    assert Directive(other)[8..] == other && Directive(quotedPath)[8..] == quotedPath;
  }

  /** Of two blocks the one begins with the other exactly when their middle lines agree. */
  lemma BlockShared(start: string, mine: string, other: string, end: string, tail: string)
    requires '\n' !in mine && '\n' !in other
    ensures var text := start + "\n" + mine + "\n" + end + "\n" + tail;
      var expected := start + "\n" + other + "\n" + end;
      (expected <= text <==> mine == other) && (mine == other ==> text[|expected|..] == "\n" + tail)
  {
    var text, expected := start + "\n" + mine + "\n" + end + "\n" + tail, start + "\n" + other + "\n" + end;
    var skip := |start| + 1;
    assert text[skip..] == mine + "\n" + (end + "\n" + tail);
    assert expected[skip..] == other + "\n" + end;
    if expected <= text {
      assert expected[skip..] <= text[skip..];
      SamePrefix(other, mine, end + "\n" + tail, end);
    }
  }

  lemma OneLine(quotedPath: string)
    requires '\n' !in quotedPath
    ensures '\n' !in Directive(quotedPath)
  {
    assert '\n' !in "Include ";
  }

  /** Uninstalling gives the user's text back, byte for byte, and touches no block of another path. */
  lemma RemovalUndoesUpdate(text: string, quotedPath: string, other: string)
    requires !Marked(text) && '\n' !in quotedPath && '\n' !in other
    ensures Updated(text, quotedPath).Ok?
    ensures Removed(Updated(text, quotedPath).value, other)
         == if Marked(Directive(quotedPath)) then Err(Malformed)
            else if other == quotedPath then Ok((text, true))
            else Err(WrongPath)
    ensures Removed(text, quotedPath) == Ok((text, false))
  {
    MarkerCounts();
    MarkersAreLines();
    RenderCounts(quotedPath, text, START);
    RenderCounts(quotedPath, text, END);
    if !Marked(Directive(quotedPath)) {
      RenderedRemoved(quotedPath, text, other);
    }
  }

  /** The block that is removed, with one kind of line ending throughout. */
  function BlockWith(ending: string, quotedPath: string): string {
    START + ending + Directive(quotedPath) + ending + END
  }

  /** What a removal takes from the text after the block: nothing of an empty one, otherwise a line ending, and one more
      if it is there. */
  ghost predicate LeftAfter(remaining: string, ending: string, rest: string) {
    || remaining == rest == ""
    || remaining == ending + (ending + rest)
    || (remaining == ending + rest && !(ending <= rest))
  }

  /** On every config: a text without markers stays; a config that begins with the one block of this path, in either
      kind of line ending, loses it; nothing else is changed. */
  lemma RemovedIff(existing: string, quotedPath: string, rest: string, changed: bool)
    ensures Removed(existing, quotedPath) == Ok((rest, changed)) <==>
      if !Marked(existing) then !changed && rest == existing
      else
        && changed && Count(existing, START) == 1 == Count(existing, END)
        && exists ending :: ending in {"\n", "\r\n"} && RemovesWith(existing, quotedPath, ending, rest)
  {
    if Count(existing, START) == 1 == Count(existing, END) {
      RemovedWith(existing, quotedPath, "\n", rest, changed);
      RemovedWith(existing, quotedPath, "\r\n", rest, changed);
      if Removed(existing, quotedPath) == Ok((rest, changed)) {
        var ending := if "\r\n" <= existing[|START|..] then "\r\n" else "\n";
        assert RemovesWith(existing, quotedPath, ending, rest);
      }
    }
  }

  /** The path is what is wrong exactly when the only block begins the config with a line of its own. */
  lemma WrongPathIff(existing: string, quotedPath: string)
    ensures Removed(existing, quotedPath) == Err(WrongPath) <==>
      && Count(existing, START) == 1 == Count(existing, END)
      && exists ending :: ending in {"\n", "\r\n"} && NamesAnother(existing, quotedPath, ending)
  {
    if START + "\r\n" <= existing {
      EndingFound(existing, "\r\n");
    }
    if START + "\n" <= existing {
      EndingFound(existing, "\n");
    }
    if Removed(existing, quotedPath) == Err(WrongPath) {
      var ending := if "\r\n" <= existing[|START|..] then "\r\n" else "\n";
      assert NamesAnother(existing, quotedPath, ending);
    }
  }

  predicate NamesAnother(existing: string, quotedPath: string, ending: string) {
    START + ending <= existing && !(BlockWith(ending, quotedPath) <= existing)
  }

  ghost predicate RemovesWith(existing: string, quotedPath: string, ending: string, rest: string) {
    var block := BlockWith(ending, quotedPath);
    block <= existing && LeftAfter(existing[|block|..], ending, rest)
  }

  lemma RemovedWith(existing: string, quotedPath: string, ending: string, rest: string, changed: bool)
    requires ending == "\n" || ending == "\r\n"
    requires Count(existing, START) == 1 == Count(existing, END)
    ensures START + ending <= existing ==>
      (Removed(existing, quotedPath) == Ok((rest, changed)) <==>
        changed && RemovesWith(existing, quotedPath, ending, rest))
    ensures RemovesWith(existing, quotedPath, ending, rest) ==> START + ending <= existing
  {
    var block := BlockWith(ending, quotedPath);
    if block <= existing {
      assert (START + ending) <= block;
      LeftIff(existing[|block|..], ending, rest);
    }
    if START + ending <= existing {
      EndingFound(existing, ending);
    }
  }

  lemma EndingFound(existing: string, ending: string)
    requires (ending == "\n" || ending == "\r\n") && START + ending <= existing
    ensures START <= existing && ending <= existing[|START|..]
    ensures ending == "\n" ==> !("\r\n" <= existing[|START|..])
  {
    assert existing[..|START|] == START;
    assert existing[|START|..][..|ending|] == ending;
    if ending == "\n" {
      assert existing[|START|..][0] == '\n' && "\r\n"[0] == '\r';
    }
  }

  lemma LeftIff(remaining: string, ending: string, rest: string)
    requires ending != ""
    ensures LeftAfter(remaining, ending, rest) <==>
      if remaining == "" then rest == ""
      else ending <= remaining && rest == TrimPrefix(remaining[|ending|..], ending)
  {
    if ending <= remaining {
      var more := remaining[|ending|..];
      assert remaining == ending + more;
      if ending <= more {
        assert more == ending + more[|ending|..];
      }
    }
  }

  lemma RenderedRemoved(quotedPath: string, text: string, other: string)
    requires '\n' !in quotedPath && '\n' !in other
    requires Count(Render(quotedPath, text), START) == 1 == Count(Render(quotedPath, text), END)
    ensures Removed(Render(quotedPath, text), other) == if other == quotedPath then Ok((text, true)) else Err(WrongPath)
  {
    StartsWithMarker(quotedPath, text);
    TailTrimmed(text);
    RemovalFinds(quotedPath, text, other, START + "\n" + Directive(other) + "\n" + END);
  }

  lemma TailTrimmed(text: string)
    ensures var remaining := "\n" + (if text == "" then "" else "\n" + text);
      "\n" <= remaining && TrimPrefix(remaining[1..], "\n") == text
  {
    var tail := if text == "" then "" else "\n" + text;
    assert ("\n" + tail)[1..] == tail;
  }

  lemma StartsWithMarker(quotedPath: string, text: string)
    ensures START <= Render(quotedPath, text)
    ensures "\n" <= Render(quotedPath, text)[|START|..] && !("\r\n" <= Render(quotedPath, text)[|START|..])
  {
    RenderLines(quotedPath, text);
    var tail := if text == "" then "" else "\n" + text;
    LineFirst(START, Directive(quotedPath) + "\n" + (END + "\n" + tail));
  }

  lemma LineFirst(line: string, rest: string)
    ensures line <= line + "\n" + rest
    ensures "\n" <= (line + "\n" + rest)[|line|..] && !("\r\n" <= (line + "\n" + rest)[|line|..])
  {
    assert ("\n" + rest)[0] == '\n' && "\r\n"[0] == '\r';
    assert line + "\n" + rest == line + ("\n" + rest);
  }

  // ---------------------------------------------------------------- a block the user has moved

  /** The start marker stands at the beginning of a line. */
  predicate BlockAtLineStart(existing: string) {
    Count(existing, START) == 1 &&
    (Index(existing, START) == 0 ||
      (0 < Index(existing, START) <= |existing| && existing[Index(existing, START) - 1] == '\n'))
  }

  lemma CountSplit(text: string, pattern: string, i: nat)
    requires pattern != "" && MatchAt(text, pattern, i)
    requires forall j :: 0 <= j < i ==> !MatchAt(text, pattern, j)
    ensures Count(text, pattern) == 1 + Count(text[i + |pattern|..], pattern)
  {
    CountFromFirst(text, pattern, 0, i);
    CountSuffix(text, pattern, i + |pattern|);
  }

  /** A pattern that occurs once is not in what follows its first match. */
  lemma GoneAfterFirst(text: string, pattern: string)
    requires pattern != "" && Count(text, pattern) == 1
    ensures Index(text, pattern) >= 0 && Index(text, pattern) + |pattern| <= |text|
    ensures Count(text[Index(text, pattern) + |pattern|..], pattern) == 0
  {
    CountPositive(text, pattern);
    IndexIsFirst(text, pattern);
    CountSplit(text, pattern, Index(text, pattern));
  }

  lemma SuffixUnmarked(text: string, k: nat, pattern: string)
    requires pattern != "" && k <= |text| && Count(text, pattern) == 0
    ensures Count(text[k..], pattern) == 0
  {
    CountPositive(text, pattern);
    CountPositive(text[k..], pattern);
    assert text == text[..k] + text[k..];
    if Occurs(text[k..], pattern) {
      var i :| MatchAt(text[k..], pattern, i);
      MatchInTail(text[..k], text[k..], pattern, i + k);
    }
  }

  lemma EndAfterStart(rest: string)
    requires START <= rest && Index(rest, END) >= 0
    ensures Index(rest, END) >= 2
  {
    MarkersAreLines();
    IndexIsFirst(rest, END);
    var i := Index(rest, END);
    assert rest[0] == START[0] && rest[1] == START[1] && rest[2] == START[2];
    assert rest[i] == END[0] && rest[i + 1] == END[1] && rest[i + 2] == END[2];
  }

  lemma MatchIsPrefix(text: string, pattern: string, i: nat)
    requires MatchAt(text, pattern, i)
    ensures i + |pattern| <= |text| && pattern <= text[i..]
  {
    assert text[i..][..|pattern|] == pattern;
  }

  lemma StartFound(existing: string)
    requires Count(existing, START) == 1
    ensures 0 <= Index(existing, START) <= |existing| && START <= existing[Index(existing, START)..]
  {
    IndexIsFirst(existing, START);
    CountPositive(existing, START);
    MatchIsPrefix(existing, START, Index(existing, START));
  }

  lemma EndFound(rest: string)
    requires Index(rest, END) >= 0
    ensures MatchAt(rest, END, Index(rest, END))
  {
    IndexIsFirst(rest, END);
  }

  lemma BlockParts(existing: string) returns (start: nat, end: nat)
    requires UserText(existing).Ok? && Count(existing, START) == 1
    ensures start == Index(existing, START) <= |existing|
    ensures START <= existing[start..] && Index(existing[start..], END) >= 0 && Count(existing, END) == 1
    ensures end == Index(existing[start..], END) + |END| && start + end <= |existing|
    ensures UserText(existing).value == CutOut(existing, start, end)
  {
    StartFound(existing);
    start := Index(existing, START);
    BothCounted(existing);
    EndWithin(existing[start..]);
    end := Index(existing[start..], END) + |END|;
    UserTextIsCut(existing, start, end);
  }

  lemma BothCounted(existing: string)
    requires UserText(existing).Ok? && Count(existing, START) == 1
    ensures Count(existing, END) == 1
    ensures 0 <= Index(existing, START) <= |existing| ==> Index(existing[Index(existing, START)..], END) >= 0
  {
  }

  lemma EndWithin(rest: string)
    requires Index(rest, END) >= 0
    ensures Index(rest, END) + |END| <= |rest|
  {
    EndFound(rest);
  }

  lemma UserTextIsCut(existing: string, start: nat, length: nat)
    requires UserText(existing).Ok? && Count(existing, START) == 1
    requires start == Index(existing, START) && start + length <= |existing|
    requires length == Index(existing[start..], END) + |END|
    ensures UserText(existing).value == CutOut(existing, start, length)
  {
  }

  predicate Newlines(text: string) {
    text == "" || text == "\n" || text == "\r\n"
  }

  lemma EndingDropped(rest: string) returns (ending: string)
    ensures Newlines(ending) && rest == ending + AfterBlock(rest)
  {
    ending := rest[..|rest| - |AfterBlock(rest)|];
  }

  lemma SplitInThree(text: string, start: nat, end: nat)
    requires start <= end <= |text|
    ensures text == text[..start] + text[start..end] + text[end..]
  {
  }

  lemma BlockBorders(existing: string, start: nat, length: nat, block: string)
    requires start + length <= |existing| && START <= existing[start..]
    requires Index(existing[start..], END) >= 0 && length == Index(existing[start..], END) + |END|
    requires block == existing[start..start + length]
    ensures START <= block && |END| <= |block| && block[|block| - |END|..] == END
  {
    var rest := existing[start..];
    assert block == rest[..length];
    EndFound(rest);
    EndAfterStart(rest);
    MarkersAreLines();
    assert rest[..|START|] == block[..|START|];
  }

  /** Only the block and line endings at its borders are lost. */
  lemma OnlyBoundaryLost(existing: string)
    returns (pre: string, block: string, post: string, ending: string, first: string, second: string)
    requires UserText(existing).Ok? && Count(existing, START) == 1
    ensures START <= block && |END| <= |block| && block[|block| - |END|..] == END
    ensures Newlines(ending) && Newlines(first) && Newlines(second)
    ensures existing == pre + block + (ending + post)
    ensures pre + post == first + second + UserText(existing).value
  {
    var start, length := BlockParts(existing);
    pre, block := existing[..start], existing[start..start + length];
    post := AfterBlock(existing[start + length..]);
    BlockBorders(existing, start, length, block);
    SplitInThree(existing, start, start + length);
    ending := EndingDropped(existing[start + length..]);
    first, second := TrimmedAway(pre + post);
  }

  lemma TrimmedAway(text: string) returns (first: string, second: string)
    ensures Newlines(first) && Newlines(second) && text == first + second + TrimBoundary(text)
  {
    var trimmed := TrimPrefix(text, "\r\n");
    first := if "\r\n" <= text then "\r\n" else "";
    second := if "\n" <= trimmed then "\n" else "";
  }

  // ---------------------------------------------------------------- when the last path wins

  lemma HashOnlyFirst(marker: string)
    requires marker in [START, END]
    ensures marker != "" && marker[0] == '#' && forall k :: 0 < k < |marker| ==> marker[k] != '#'
    ensures '\n' !in marker && '\r' !in marker
  {
    assert '#' !in " herdr-sandbox" && '#' !in " managed SSH include";
    assert '\r' !in " herdr-sandbox" && '\r' !in " managed SSH include";
    MarkersAreLines();
    assert START == "# BEGIN" + TITLE && END == "# END" + TITLE;
  }

  /** A marker that is counted once stands in one place only. */
  lemma SingleMatch(text: string, marker: string, i: int)
    requires marker in [START, END] && Count(text, marker) == 1 && MatchAt(text, marker, i)
    ensures i == Index(text, marker)
  {
    HashOnlyFirst(marker);
    MatchChar(text, marker, i, 0);
    IndexIsFirst(text, marker);
    GoneAfterFirst(text, marker);
    var first := Index(text, marker);
    var head, tail := text[..first + |marker|], text[first + |marker|..];
    assert text == head + tail;
    if first < i < first + |marker| {
      MatchChar(text, marker, first, i - first);
    } else if i >= first + |marker| {
      MatchInTail(head, tail, marker, i);
      CountPositive(tail, marker);
    }
  }

  /** Neither side of the block carries a marker of its own. */
  lemma SidesUnmarked(existing: string, start: nat, end: nat)
    requires Count(existing, START) == 1 == Count(existing, END) && start + end <= |existing| && end >= |END|
    requires MatchAt(existing, START, start) && MatchAt(existing, END, start + end - |END|)
    ensures !Marked(existing[..start]) && !Marked(existing[start + end..])
  {
    MarkersAreLines();
    SingleMatch(existing, START, start);
    SingleMatch(existing, END, start + end - |END|);
    MatchChar(existing, START, start, 2);
    MatchChar(existing, END, start + end - |END|, 2);
    forall marker | marker in [START, END]
      ensures Count(existing[..start], marker) == 0 == Count(existing[start + end..], marker)
    {
      SideUnmarked(existing, start, end, marker);
    }
  }

  lemma SideUnmarked(existing: string, start: nat, end: nat, marker: string)
    requires marker in [START, END] && Count(existing, marker) == 1 && start + end <= |existing|
    requires start <= Index(existing, marker) < start + end
    ensures Count(existing[..start], marker) == 0 == Count(existing[start + end..], marker)
  {
    HashOnlyFirst(marker);
    var pre, post := existing[..start], existing[start + end..];
    CountPositive(pre, marker);
    CountPositive(post, marker);
    assert existing == pre + existing[start..] && existing == existing[..start + end] + post;
    if i :| MatchAt(pre, marker, i) {
      MatchInHead(pre, existing[start..], marker, i);
      SingleMatch(existing, marker, i);
    }
    if i :| MatchAt(post, marker, i) {
      MatchInTail(existing[..start + end], post, marker, start + end + i);
      SingleMatch(existing, marker, start + end + i);
    }
  }

  /** The first `k` characters of a marker end the one text, and the others begin the other text. */
  predicate Straddles(pre: string, post: string, marker: string, k: nat) {
    0 < k < |marker| && k <= |pre| && pre[|pre| - k..] == marker[..k] && marker[k..] <= post
  }

  ghost predicate MakesMarker(pre: string, post: string) {
    Across(pre, post, START) || Across(pre, post, END)
  }

  ghost predicate Across(pre: string, post: string, marker: string) {
    exists k :: Straddles(pre, post, marker, k)
  }

  lemma StraddlingMatch(pre: string, post: string, marker: string, k: nat)
    requires Straddles(pre, post, marker, k)
    ensures MatchAt(pre + post, marker, |pre| - k)
  {
    var joined, i := pre + post, |pre| - k;
    assert joined[i..i + |marker|] == pre[i..] + post[..|marker| - k];
    assert marker == marker[..k] + marker[k..];
  }

  lemma MatchStraddles(pre: string, post: string, marker: string, i: nat)
    requires marker != "" && Count(pre, marker) == 0 == Count(post, marker) && MatchAt(pre + post, marker, i)
    ensures i < |pre| < i + |marker| && Straddles(pre, post, marker, |pre| - i)
  {
    CountPositive(pre, marker);
    CountPositive(post, marker);
    if i >= |pre| {
      MatchInTail(pre, post, marker, i);
    } else if i + |marker| <= |pre| {
      MatchInHead(pre, post, marker, i);
    } else {
      var k, joined := |pre| - i, pre + post;
      assert marker == joined[i..i + |marker|];
      assert marker[..k] == joined[i..|pre|] == pre[i..];
      assert marker[k..] == joined[|pre|..i + |marker|] == post[..|marker| - k];
    }
  }

  lemma JoinedHasIff(pre: string, post: string, marker: string)
    requires marker != "" && Count(pre, marker) == 0 == Count(post, marker)
    ensures Count(pre + post, marker) > 0 <==> Across(pre, post, marker)
  {
    CountPositive(pre + post, marker);
    if k :| Straddles(pre, post, marker, k) {
      StraddlingMatch(pre, post, marker, k);
    }
    if i :| MatchAt(pre + post, marker, i) {
      MatchStraddles(pre, post, marker, i);
    }
  }

  lemma JoinedMarkedIff(pre: string, post: string)
    requires !Marked(pre) && !Marked(post)
    ensures Marked(pre + post) <==> MakesMarker(pre, post)
  {
    MarkersAreLines();
    JoinedHasIff(pre, post, START);
    JoinedHasIff(pre, post, END);
  }

  /** Line endings at the beginning have no part in a marker. */
  lemma TrimmingKeepsMarks(text: string)
    ensures Marked(TrimBoundary(text)) <==> Marked(text)
  {
    var trimmed := TrimBoundary(text);
    var head := text[..|text| - |trimmed|];
    assert text == head + trimmed && forall k :: 0 <= k < |head| ==> head[k] == '\n' || head[k] == '\r';
    forall marker | marker in [START, END] ensures Count(trimmed, marker) > 0 <==> Count(text, marker) > 0 {
      HashOnlyFirst(marker);
      CountPositive(trimmed, marker);
      CountPositive(text, marker);
      if i :| MatchAt(trimmed, marker, i) {
        MatchInTail(head, trimmed, marker, |head| + i);
      }
      if i :| MatchAt(text, marker, i) {
        MatchChar(text, marker, i, 0);
        MatchInTail(head, trimmed, marker, i);
      }
    }
  }

  /** The config has a block, and what stands before it and what stands after it would together make a marker. */
  ghost predicate MarkerAround(existing: string) {
    && Count(existing, START) == 1
    && var start := Index(existing, START);
       0 <= start <= |existing| && MarkerBetween(existing, start, Index(existing[start..], END) + |END|)
  }

  /** The same of a block of length `length` at `start`. */
  ghost predicate MarkerBetween(existing: string, start: nat, length: int) {
    0 <= length && start + length <= |existing| &&
      MakesMarker(existing[..start], AfterBlock(existing[start + length..]))
  }

  lemma MarkerAroundAt(existing: string, start: nat, length: nat)
    requires Count(existing, START) == 1 && start == Index(existing, START) <= |existing|
    requires length == Index(existing[start..], END) + |END|
    ensures MarkerAround(existing) <==> MarkerBetween(existing, start, length)
  {
  }

  lemma CutMarkedIff(pre: string, rest: string)
    requires !Marked(pre) && !Marked(rest)
    ensures Marked(TrimBoundary(pre + AfterBlock(rest))) <==> MakesMarker(pre, AfterBlock(rest))
  {
    var post := AfterBlock(rest);
    MarkersAreLines();
    SuffixUnmarked(rest, |rest| - |post|, START);
    SuffixUnmarked(rest, |rest| - |post|, END);
    assert rest[|rest| - |post|..] == post;
    JoinedMarkedIff(pre, post);
    TrimmingKeepsMarks(pre + post);
  }

  lemma UserTextMarkedIff(existing: string)
    requires UserText(existing).Ok?
    ensures Marked(UserText(existing).value) <==> MarkerAround(existing)
  {
    if Count(existing, START) == 1 {
      var start, length := BlockCut(existing);
      MarkedCutIff(existing, start, length);
      MarkerAroundAt(existing, start, length);
    }
  }

  lemma BlockCut(existing: string) returns (start: nat, length: nat)
    requires UserText(existing).Ok? && Count(existing, START) == 1
    ensures start == Index(existing, START) && start + length <= |existing|
    ensures length == Index(existing[start..], END) + |END|
    ensures !Marked(existing[..start]) && !Marked(existing[start + length..])
    ensures UserText(existing).value == CutOut(existing, start, length)
  {
    start, length := BlockParts(existing);
    BlockMatches(existing, start, length);
    SidesUnmarked(existing, start, length);
  }

  lemma MarkedCutIff(existing: string, start: nat, length: nat)
    requires start + length <= |existing|
    requires !Marked(existing[..start]) && !Marked(existing[start + length..])
    ensures Marked(CutOut(existing, start, length)) <==> MarkerBetween(existing, start, length)
  {
    CutMarkedIff(existing[..start], existing[start + length..]);
  }

  lemma BlockMatches(existing: string, start: nat, end: nat)
    requires start + end <= |existing| && START <= existing[start..]
    requires Index(existing[start..], END) >= 0 && end == Index(existing[start..], END) + |END|
    ensures MatchAt(existing, START, start) && MatchAt(existing, END, start + end - |END|)
  {
    EndFound(existing[start..]);
    assert existing == existing[..start] + existing[start..];
    MatchInTail(existing[..start], existing[start..], START, start);
    MatchInTail(existing[..start], existing[start..], END, start + end - |END|);
  }

  /** For every config that can be rewritten at all: the last path wins, and so rewriting is idempotent, exactly when
      the texts before and after its block do not make a marker between them, and the path carries none. */
  lemma LastPathWinsIff(existing: string, first: string, second: string)
    requires UserText(existing).Ok?
    ensures Updated(existing, first).Ok?
    ensures Updated(Updated(existing, first).value, second) == Updated(existing, second)
       <==> !MarkerAround(existing) && !Marked(Directive(first))
  {
    RewriteOfRendered(first, UserText(existing).value, second);
    UserTextMarkedIff(existing);
  }

  lemma NoMarkerAcrossLines(pre: string, post: string)
    requires pre == "" || pre[|pre| - 1] == '\n'
    ensures !MakesMarker(pre, post)
  {
    NotAcrossLines(pre, post, START);
    NotAcrossLines(pre, post, END);
  }

  lemma NotAcrossLines(pre: string, post: string, marker: string)
    requires pre == "" || pre[|pre| - 1] == '\n'
    requires marker in [START, END]
    ensures !Across(pre, post, marker)
  {
    HashOnlyFirst(marker);
    forall k: nat ensures !Straddles(pre, post, marker, k) {
      if 0 < k < |marker| && k <= |pre| {
        assert pre[|pre| - k..][k - 1] == pre[|pre| - 1] && marker[..k][k - 1] == marker[k - 1];
      }
    }
  }

  /** A block at the beginning of a line is enough. */
  lemma MovedBlockLastPathWins(existing: string, first: string, second: string)
    requires UserText(existing).Ok? && BlockAtLineStart(existing) && !Marked(Directive(first))
    ensures Updated(existing, first).Ok?
    ensures Updated(Updated(existing, first).value, second) == Updated(existing, second)
  {
    LineStartMakesNone(existing);
    LastPathWinsIff(existing, first, second);
  }

  lemma LineStartMakesNone(existing: string)
    requires UserText(existing).Ok? && BlockAtLineStart(existing)
    ensures !MarkerAround(existing)
  {
    var start, length := BlockCut(existing);
    NoneBetween(existing, start, length);
    MarkerAroundAt(existing, start, length);
  }

  lemma NoneBetween(existing: string, start: nat, length: nat)
    requires start + length <= |existing| && (start == 0 || existing[start - 1] == '\n')
    ensures !MarkerBetween(existing, start, length)
  {
    NoMarkerAcrossLines(existing[..start], AfterBlock(existing[start + length..]));
  }

  // ---------------------------------------------------------------- a block inside a line

  /** What stands around a block in the middle of a line can itself be a marker. */
  const JUNCTION := START[..|START| - 1] + START + END + START[|START| - 1..]

  lemma StartEnds()
    ensures START[|START| - 1] == 'e'
  {
    assert START == "# BEGIN" + " herdr-sandbox" + " managed SSH include";
  }

  lemma FourParts(first: string, second: string, third: string, fourth: string)
    ensures var text, end := first + second + third + fourth, |first| + |second|;
      && text[|first|..end] == second && text[end..end + |third|] == third
      && forall k :: 0 <= k < end ==> text[k] == if k < |first| then first[k] else second[k - |first|]
  {
  }

  lemma JunctionChars(k: nat)
    requires k < 81
    ensures |JUNCTION| == 121
    ensures k < 40 ==> JUNCTION[k] == START[k]
    ensures k >= 40 ==> JUNCTION[k] == START[k - 40]
  {
    MarkersAreLines();
    FourParts(START[..|START| - 1], START, END, START[|START| - 1..]);
  }

  lemma JunctionMatches(k: nat)
    requires k < 81
    ensures MatchAt(JUNCTION, START, k) ==> k == 40
    ensures !MatchAt(JUNCTION, END, k)
  {
    MarkersAreLines();
    HashOnlyFirst(START);
    JunctionChars(k);
    if k == 0 {
      JunctionChars(40);
      JunctionChars(2);
      Differs(JUNCTION, START, 0, 40);
      Differs(JUNCTION, END, 0, 2);
    } else if k == 40 {
      JunctionChars(42);
      Differs(JUNCTION, END, 40, 2);
    } else {
      Differs(JUNCTION, START, k, 0);
      Differs(JUNCTION, END, k, 0);
    }
  }

  lemma JunctionCounts()
    ensures Count(JUNCTION, START) == 1 == Count(JUNCTION, END)
    ensures MatchAt(JUNCTION, START, 40) && MatchAt(JUNCTION, END, 81)
  {
    MarkersAreLines();
    FourParts(START[..|START| - 1], START, END, START[|START| - 1..]);
    forall k | 0 <= k < 81 ensures (MatchAt(JUNCTION, START, k) ==> k == 40) && !MatchAt(JUNCTION, END, k) {
      JunctionMatches(k);
    }
    CountFromFirst(JUNCTION, START, 0, 40);
    CountFromFirst(JUNCTION, END, 0, 81);
  }

  lemma JunctionCut()
    ensures |JUNCTION| == 121 && CutOut(JUNCTION, 40, 80) == START
  {
    MarkersAreLines();
    StartEnds();
    assert JUNCTION[120..] == START[40..] == "e";
    assert JUNCTION[..40] + "e" == START;
  }

  lemma JunctionIndices()
    ensures Index(JUNCTION, START) == 40 && |JUNCTION| == 121 && Index(JUNCTION[40..], END) == 41
  {
    MarkersAreLines();
    JunctionCounts();
    IndexIsFirst(JUNCTION, START);
    forall k | 0 <= k < 40 ensures !MatchAt(JUNCTION, START, k) {
      JunctionMatches(k);
    }
    var rest := JUNCTION[40..];
    assert JUNCTION == JUNCTION[..40] + rest;
    MatchInTail(JUNCTION[..40], rest, END, 81);
    IndexIsFirst(rest, END);
    var i := Index(rest, END);
    MatchInTail(JUNCTION[..40], rest, END, i + 40);
    if i < 41 { JunctionMatches(i + 40); }
  }

  /** The second rewrite of such a config fails: the first one leaves a marker in the user's text. */
  lemma RewriteInsideALineFails(first: string, second: string)
    ensures Updated(JUNCTION, first) == Ok(Render(first, START))
    ensures Updated(Render(first, START), second) == Err(Malformed)
  {
    JunctionCounts();
    JunctionIndices();
    JunctionCut();
    MarkerCounts();
    RewriteOfRendered(first, START, second);
  }

  // ---------------------------------------------------------------- installing the block

  function Text(content: Option<string>): string {
    if content.Some? then content.value else ""
  }

  datatype Installation = AlreadyThere | Written | Failed(error: IncludeError)

  /** What another program does to the file at some moment. */
  datatype Edit = NoEdit | Leaves(content: Option<string>)

  function Edited(content: Option<string>, edit: Edit): Option<string> {
    if edit.Leaves? then edit.content else content
  }

  /** What other programs do to the file in each attempt, before it is read, before it is compared and before it is
      replaced; whether it is too long to be read; and whether it can be replaced. */
  datatype Attempts = Attempts(
    before: nat -> Edit, tooLong: nat -> bool, compared: nat -> Edit, between: nat -> Edit, replaced: nat -> bool)

  /** The user's config file, which other programs may rewrite at any time. */
  class UserConfig {
    var content: Option<string>

    constructor (content: Option<string>)
      ensures this.content == content
    {
      this.content := content;
    }

    /** Another program's edit, or none. */
    method Elsewhere(edit: Edit)
      modifies this
      ensures content == Edited(old(content), edit)
    {
      content := Edited(content, edit);
    }

    /** writeFileAtomicallyIfUnchanged: the file is compared, then replaced, if that works. An edit between the two is
        not noticed. */
    method WriteIfUnchanged(expected: Option<string>, data: string, between: Edit, works: bool)
      returns (written: bool, changed: bool)
      modifies this
      ensures changed <==> old(content) != expected
      ensures changed ==> !written && content == old(content)
      ensures !changed ==> written == works
      ensures written ==> content == Some(data)
      ensures !written && !changed ==> content == Edited(old(content), between)
    {
      if content != expected {
        return false, true;
      }
      Elsewhere(between);
      written, changed := works, false;
      if written {
        content := Some(data);
      }
    }

    /** The three attempts of installSSHHostAliasAt. `theirs` is the file as other programs last left it, and `seen`
        the file as it was compared. Whatever the outcome is, only an edit between the comparison and the replacement
        is lost: a success means that the block stands in front of exactly the text that was compared. */
    method Install(quotedPath: string, world: Attempts)
      returns (outcome: Installation, ghost theirs: Option<string>, ghost seen: Option<string>)
      modifies this
      ensures Explained(outcome, quotedPath, content, seen)
      ensures outcome != Written ==> content == theirs
      ensures outcome == AlreadyThere ==> theirs == seen
      // a failure has its reason
      ensures outcome == Failed(TooLong) ==> world.tooLong(1) || world.tooLong(2) || world.tooLong(3)
      ensures outcome == Failed(WriteFailed) ==> !world.replaced(1) || !world.replaced(2) || !world.replaced(3)
      ensures outcome == Failed(KeptChanging) ==>
        world.compared(1).Leaves? && world.compared(2).Leaves? && world.compared(3).Leaves?
      // a first attempt that nothing disturbs
      ensures world.before(1) == NoEdit && world.tooLong(1) ==> outcome == Failed(TooLong)
      ensures world.before(1) == NoEdit && !world.tooLong(1) && !Stale(old(content), quotedPath) ==>
        content == old(content) && !outcome.Written?
      ensures Calm(world) && Stale(old(content), quotedPath) ==>
        outcome == if world.replaced(1) then Written else Failed(WriteFailed)
    {
      theirs, seen := content, content;
      ghost var stale := Stale(content, quotedPath);
      for attempt := 1 to 4
        invariant content == theirs
        invariant attempt == 1 ==> content == old(content)
        invariant attempt > 1 && world.before(1) == NoEdit ==> !world.tooLong(1) && stale
        invariant forall k :: 1 <= k < attempt ==> world.compared(k).Leaves?
      {
        var done;
        done, outcome, theirs, seen := Attempt(quotedPath, world, attempt);
        if done {
          return;
        }
      }
      return Failed(KeptChanging), theirs, seen;
    }

    /** One attempt: over, unless the file was not the same when it was compared. */
    method Attempt(quotedPath: string, world: Attempts, attempt: nat)
      returns (done: bool, outcome: Installation, ghost theirs: Option<string>, ghost seen: Option<string>)
      modifies this
      ensures var read := Edited(old(content), world.before(attempt));
        if world.tooLong(attempt) then done && outcome == Failed(TooLong)
        else if !Stale(read, quotedPath) then done && !outcome.Written? && content == seen == read
        else if Edited(read, world.compared(attempt)) != read then !done
        else done && outcome == if world.replaced(attempt) then Written else Failed(WriteFailed)
      ensures done ==> Explained(outcome, quotedPath, content, seen)
      ensures !done || outcome != Written ==> content == theirs
      ensures outcome == AlreadyThere ==> theirs == seen
      ensures outcome != Failed(KeptChanging)
      ensures outcome == Failed(TooLong) ==> world.tooLong(attempt)
      ensures outcome == Failed(WriteFailed) && done ==> !world.replaced(attempt)
    {
      Elsewhere(world.before(attempt));
      done, outcome, theirs, seen := true, AlreadyThere, content, content;
      if world.tooLong(attempt) {
        outcome := Failed(TooLong);
        return;
      }
      var existing := content;
      var updated := UpdateManagedInclude(Text(existing), quotedPath);
      if updated.Err? {
        outcome := Failed(updated.error);
        return;
      }
      if updated.value == Text(existing) {
        return;
      }
      Elsewhere(world.compared(attempt));
      seen := content;
      theirs := if content == existing then Edited(content, world.between(attempt)) else content;
      var written, changed :=
        WriteIfUnchanged(existing, updated.value, world.between(attempt), world.replaced(attempt));
      done := !changed;
      outcome := if written then Written else Failed(WriteFailed);
    }
  }

  /** The outcome is that of the update of the text that was seen: it has been written, or was there already, or cannot
      be made; or it could not be read or written, or kept changing. */
  ghost predicate Explained(outcome: Installation, quotedPath: string, content: Option<string>, seen: Option<string>) {
    match outcome
    case Written => content.Some? && Updated(Text(seen), quotedPath) == Ok(content.value)
    case AlreadyThere => content == seen && Updated(Text(seen), quotedPath) == Ok(Text(seen))
    case Failed(TooLong) => true
    case Failed(WriteFailed) => true
    case Failed(KeptChanging) => true
    case Failed(error) => content == seen && Updated(Text(seen), quotedPath) == Err(error)
  }

  /** Nothing disturbs the first attempt before it has compared the file. */
  predicate Calm(world: Attempts) {
    world.before(1) == NoEdit && !world.tooLong(1) && world.compared(1) == NoEdit
  }

  /** A config that an update changes. */
  predicate Stale(content: Option<string>, quotedPath: string) {
    Updated(Text(content), quotedPath).Ok? && Updated(Text(content), quotedPath).value != Text(content)
  }
}
