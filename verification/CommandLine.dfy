/** Windows argument quoting (windows_command_line_other.go) against the Microsoft C argument rules. */
module CommandLine {
  import opened Common

  const BACKSLASH := '\\'
  const QUOTE := '"'

  function Backslashes(n: nat): (r: string)
    ensures |r| == n && forall k :: 0 <= k < n ==> r[k] == BACKSLASH
  {
    seq(n, _ => BACKSLASH)
  }

  // ---------------------------------------------------------------- the argument rules

  predicate Separator(c: char) {
    c == ' ' || c == '\t'
  }

  function LeadingBackslashes(line: string): (n: nat)
    ensures n <= |line| && line[..n] == Backslashes(n)
    ensures n < |line| ==> line[n] != BACKSLASH
  {
    if line == [] || line[0] != BACKSLASH then 0
    else
      var n := LeadingBackslashes(line[1..]);
      assert line[..n + 1] == [line[0]] + line[1..][..n];
      n + 1
  }

  /** The rest of a command line as an argument list. `arg` is the argument under way, if `started`.
      2n backslashes and a quote are n backslashes and a quotation mark that opens or closes a quoted
      part; 2n+1 are n backslashes and a literal quote; other backslashes are literal; two quotation
      marks inside a quoted part are a literal quote; separators count only outside. The rules read the program
      name at the head of a line more simply; here it is an argument like the others, as it is for the quoting. */
  function ParseFrom(line: string, quoted: bool, started: bool, arg: string): seq<string>
    decreases |line|
  {
    if line == [] then
      if started then [arg] else []
    else if line[0] == BACKSLASH then
      var n := LeadingBackslashes(line);
      if n < |line| && line[n] == QUOTE then
        if n % 2 == 1 then ParseFrom(line[n + 1..], quoted, true, arg + Backslashes(n / 2) + [QUOTE])
        else ParseFrom(line[n..], quoted, true, arg + Backslashes(n / 2))
      else ParseFrom(line[n..], quoted, true, arg + Backslashes(n))
    else if line[0] == QUOTE then
      if quoted && |line| > 1 && line[1] == QUOTE then ParseFrom(line[2..], true, true, arg + [QUOTE])
      else ParseFrom(line[1..], !quoted, true, arg)
    else if !quoted && Separator(line[0]) then
      (if started then [arg] else []) + ParseFrom(line[1..], false, false, "")
    else ParseFrom(line[1..], quoted, true, arg + [line[0]])
  }

  function Parse(line: string): seq<string> {
    ParseFrom(line, false, false, "")
  }

  // ---------------------------------------------------------------- quoting

  predicate Special(c: char) {
    c == ' ' || c == '\t' || c == '\n' || c == '\U{0B}' || c == QUOTE
  }

  predicate NeedsQuotes(value: string) {
    value == "" || exists k :: 0 <= k < |value| && Special(value[k])
  }

  /** The quoted body and closing quote, when `pending` backslashes have been read and not written. */
  function QuoteFrom(value: string, pending: nat): string {
    if value == "" then Backslashes(2 * pending) + [QUOTE]
    else if value[0] == BACKSLASH then QuoteFrom(value[1..], pending + 1)
    else if value[0] == QUOTE then Backslashes(2 * pending + 1) + [QUOTE] + QuoteFrom(value[1..], 0)
    else Backslashes(pending) + [value[0]] + QuoteFrom(value[1..], 0)
  }

  function Escape(value: string): string {
    if NeedsQuotes(value) then [QUOTE] + QuoteFrom(value, 0) else value
  }

  lemma {:induction false} QuoteFromLengthens(value: string, pending: nat)
    ensures |QuoteFrom(value, pending)| > |value| + pending
  {
    if value != "" {
      QuoteFromLengthens(value[1..], if value[0] == BACKSLASH then pending + 1 else 0);
    }
  }

  /** An argument is left as it is exactly when it is not empty and has no white space and no quote. */
  lemma UnquotedIff(value: string)
    ensures Escape(value) == value <==> value != "" && forall c :: c in value ==> c !in " \t\n\U{B}\""
  {
    assert forall k :: 0 <= k < |value| ==> value[k] in value;
    QuoteFromLengthens(value, 0);
  }

  /** Separators at the head of a line are skipped. */
  lemma BlanksSkipped(line: string, c: char)
    requires Separator(c)
    ensures Parse([c] + line) == Parse(line)
  {
    assert ([c] + line)[1..] == line;
  }

  function CommandLineOf(arguments: seq<string>): string {
    if |arguments| == 0 then ""
    else if |arguments| == 1 then Escape(arguments[0])
    else Escape(arguments[0]) + " " + CommandLineOf(arguments[1..])
  }

  function ExpectedCommandLine(executable: string, configPath: string): string {
    Escape(executable) + " " + Escape(configPath)
  }

  method EscapeArgument(value: string) returns (escaped: string)
    ensures escaped == Escape(value)
  {
    if !NeedsQuotes(value) {
      return value;
    }
    var result := [QUOTE];
    var backslashes := 0;
    for i := 0 to |value|
      invariant result + QuoteFrom(value[i..], backslashes) == [QUOTE] + QuoteFrom(value, 0)
    {
      assert value[i..][1..] == value[i + 1..];
      if value[i] == BACKSLASH {
        backslashes := backslashes + 1;
      } else if value[i] == QUOTE {
        result := result + Backslashes(backslashes * 2 + 1) + [value[i]];
        backslashes := 0;
      } else {
        result := result + Backslashes(backslashes);
        backslashes := 0;
        result := result + [value[i]];
      }
    }
    escaped := result + Backslashes(backslashes * 2) + [QUOTE];
  }

  // ---------------------------------------------------------------- parsing undoes quoting

  /** What follows an argument on the line: nothing, or a separator. */
  predicate Boundary(rest: string) {
    rest == "" || rest[0] == ' '
  }

  lemma {:induction false} BackslashRun(n: nat, rest: string)
    requires rest != "" ==> rest[0] != BACKSLASH
    ensures LeadingBackslashes(Backslashes(n) + rest) == n
    ensures (Backslashes(n) + rest)[n..] == rest
  {
    var line := Backslashes(n) + rest;
    assert line[n..] == rest;
    if n > 0 {
      assert line[1..] == Backslashes(n - 1) + rest;
      BackslashRun(n - 1, rest);
    }
  }

  /** A run of backslashes before a quotation mark. */
  lemma ParseBackslashesMark(n: nat, rest: string, quoted: bool, arg: string)
    ensures ParseFrom(Backslashes(2 * n) + ([QUOTE] + rest), quoted, true, arg) ==
            ParseFrom([QUOTE] + rest, quoted, true, arg + Backslashes(n))
  {
    BackslashRun(2 * n, [QUOTE] + rest);
    if n == 0 {
      assert Backslashes(0) + ([QUOTE] + rest) == [QUOTE] + rest;
      assert arg + Backslashes(0) == arg;
    }
  }

  /** A run of backslashes before a literal quote. */
  lemma ParseBackslashesQuote(n: nat, rest: string, quoted: bool, arg: string)
    ensures ParseFrom(Backslashes(2 * n + 1) + ([QUOTE] + rest), quoted, true, arg) ==
            ParseFrom(rest, quoted, true, arg + Backslashes(n) + [QUOTE])
  {
    BackslashRun(2 * n + 1, [QUOTE] + rest);
    var odd := Backslashes(2 * n + 1) + ([QUOTE] + rest);
    assert odd[2 * n + 2..] == rest;
  }

  /** A run of backslashes before an ordinary character, or before the end. */
  lemma ParseBackslashesOther(n: nat, rest: string, quoted: bool, arg: string)
    requires rest != "" ==> rest[0] != BACKSLASH && rest[0] != QUOTE
    ensures ParseFrom(Backslashes(n) + rest, quoted, true, arg) == ParseFrom(rest, quoted, true, arg + Backslashes(n))
  {
    BackslashRun(n, rest);
    if n == 0 {
      assert Backslashes(0) + rest == rest && arg + Backslashes(0) == arg;
    }
  }

  /** The closing quotation mark. */
  lemma ParseQuotedEnd(pending: nat, rest: string, arg: string)
    requires Boundary(rest)
    ensures ParseFrom(QuoteFrom("", pending) + rest, true, true, arg) ==
            ParseFrom(rest, false, true, arg + Backslashes(pending))
  {
    assert QuoteFrom("", pending) + rest == Backslashes(2 * pending) + ([QUOTE] + rest);
    ParseBackslashesMark(pending, rest, true, arg);
    assert ([QUOTE] + rest)[1..] == rest;
  }

  /** One character other than a backslash, with the backslashes pending before it. */
  lemma ParseQuotedStep(value: string, pending: nat, rest: string, arg: string)
    requires value != "" && value[0] != BACKSLASH
    ensures ParseFrom(QuoteFrom(value, pending) + rest, true, true, arg) ==
            ParseFrom(QuoteFrom(value[1..], 0) + rest, true, true, arg + Backslashes(pending) + [value[0]])
  {
    var next := QuoteFrom(value[1..], 0) + rest;
    if value[0] == QUOTE {
      assert QuoteFrom(value, pending) + rest == Backslashes(2 * pending + 1) + ([QUOTE] + next);
      ParseBackslashesQuote(pending, next, true, arg);
    } else {
      assert QuoteFrom(value, pending) + rest == Backslashes(pending) + ([value[0]] + next);
      ParseBackslashesOther(pending, [value[0]] + next, true, arg);
      assert ([value[0]] + next)[1..] == next;
    }
  }

  lemma {:induction false} ParseQuoted(value: string, pending: nat, rest: string, arg: string)
    requires Boundary(rest)
    ensures ParseFrom(QuoteFrom(value, pending) + rest, true, true, arg) ==
            ParseFrom(rest, false, true, arg + Backslashes(pending) + value)
    decreases |value|
  {
    if value == "" {
      ParseQuotedEnd(pending, rest, arg);
      assert arg + Backslashes(pending) + value == arg + Backslashes(pending);
    } else if value[0] == BACKSLASH {
      ParseQuoted(value[1..], pending + 1, rest, arg);
      assert arg + Backslashes(pending + 1) + value[1..] == arg + Backslashes(pending) + value;
    } else {
      var arg' := arg + Backslashes(pending) + [value[0]];
      ParseQuotedStep(value, pending, rest, arg);
      ParseQuoted(value[1..], 0, rest, arg');
      assert arg' + Backslashes(0) + value[1..] == arg + Backslashes(pending) + value;
    }
  }

  lemma {:induction false} ParsePlain(value: string, rest: string, started: bool, arg: string)
    requires Boundary(rest) && (started || value != "")
    requires forall k :: 0 <= k < |value| ==> !Special(value[k])
    ensures ParseFrom(value + rest, false, started, arg) == ParseFrom(rest, false, true, arg + value)
    decreases |value|
  {
    var line := value + rest;
    if value == "" {
      assert line == rest && arg + value == arg;
    } else if value[0] == BACKSLASH {
      var n := LeadingBackslashes(value);
      var tail := value[n..];
      assert value == Backslashes(n) + tail && line == Backslashes(n) + (tail + rest);
      BackslashRun(n, tail + rest);
      ParsePlain(tail, rest, true, arg + Backslashes(n));
      assert arg + Backslashes(n) + tail == arg + value;
    } else {
      assert line[1..] == value[1..] + rest;
      ParsePlain(value[1..], rest, true, arg + [value[0]]);
      assert arg + [value[0]] + value[1..] == arg + value;
    }
  }

  lemma OpeningMark(rest: string)
    ensures ParseFrom([QUOTE] + rest, false, false, "") == ParseFrom(rest, true, true, "")
  {
    assert ([QUOTE] + rest)[1..] == rest;
  }

  lemma ParseEscaped(value: string, rest: string)
    requires Boundary(rest)
    ensures ParseFrom(Escape(value) + rest, false, false, "") == ParseFrom(rest, false, true, value)
  {
    if NeedsQuotes(value) {
      assert Escape(value) + rest == [QUOTE] + (QuoteFrom(value, 0) + rest);
      OpeningMark(QuoteFrom(value, 0) + rest);
      ParseQuoted(value, 0, rest, "");
      assert "" + Backslashes(0) + value == value;
    } else {
      ParsePlain(value, rest, false, "");
      assert "" + value == value;
    }
  }

  /** Round trip: a command line made of quoted arguments parses back to exactly those arguments. */
  lemma {:induction false} ParseUndoesQuoting(arguments: seq<string>)
    ensures Parse(CommandLineOf(arguments)) == arguments
  {
    if |arguments| == 1 {
      assert Escape(arguments[0]) + "" == Escape(arguments[0]);
      ParseEscaped(arguments[0], "");
    } else if |arguments| > 1 {
      var tail := CommandLineOf(arguments[1..]);
      var rest := " " + tail;
      assert CommandLineOf(arguments) == Escape(arguments[0]) + rest;
      ParseEscaped(arguments[0], rest);
      assert rest[1..] == tail;
      ParseUndoesQuoting(arguments[1..]);
    }
  }

  /** So an owned process is recognised by its command line: equal lines mean equal paths. */
  lemma ExpectedCommandLineInjective(executable: string, configPath: string, executable': string, configPath': string)
    requires ExpectedCommandLine(executable, configPath) == ExpectedCommandLine(executable', configPath')
    ensures executable == executable' && configPath == configPath'
  {
    var left, right := [executable, configPath], [executable', configPath'];
    assert left[1..] == [configPath] && right[1..] == [configPath'];
    assert CommandLineOf(left) == ExpectedCommandLine(executable, configPath);
    assert CommandLineOf(right) == ExpectedCommandLine(executable', configPath');
    ParseUndoesQuoting(left);
    ParseUndoesQuoting(right);
    assert left == right;
    assert left[0] == right[0] && left[1] == right[1];
  }
}
