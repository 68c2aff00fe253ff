/** UTF-8 text made safe for a terminal: the message sanitiser of operation.go and the
    diagnostic truncation of host.go. A `char` is one Unicode scalar value (a Go rune). */
module TerminalText {
  import opened Common

  // ---------------------------------------------------------------- UTF-8 (section 3 of RFC 3629)

  function EncodeRune(c: char): (r: seq<byte>)
    ensures 1 <= |r| <= 4
  {
    var v := c as int;
    if v < 0x80 then [v]
    else if v < 0x800 then [0xC0 + v / 64, 0x80 + v % 64]
    else if v < 0x10000 then [0xE0 + v / 4096, 0x80 + v / 64 % 64, 0x80 + v % 64]
    else [0xF0 + v / 262144, 0x80 + v / 4096 % 64, 0x80 + v / 64 % 64, 0x80 + v % 64]
  }

  /** The first byte tells how many there are, and the rune can be read back from them: it is encoded in no more bytes
      than it needs. */
  lemma RuneDecodes(c: char)
    ensures var r, v := EncodeRune(c), c as int;
      if r[0] < 0x80 then |r| == 1 && v == r[0] as int
      else if r[0] < 0xE0 then
        |r| == 2 && v == (r[0] as int - 0xC0) * 64 + (r[1] as int - 0x80) && v >= 0x80
      else if r[0] < 0xF0 then
        |r| == 3 && v == ((r[0] as int - 0xE0) * 64 + (r[1] as int - 0x80)) * 64 + (r[2] as int - 0x80) && v >= 0x800
      else
        && |r| == 4 && v >= 0x10000
        && v / 64 == ((r[0] as int - 0xF0) * 64 + (r[1] as int - 0x80)) * 64 + (r[2] as int - 0x80)
        && v % 64 == r[3] as int - 0x80
  {
    var v := c as int;
    SixBits(v);
    if v < 0x800 {
    } else if v < 0x10000 {
    } else {
    }
  }

  lemma SixBits(v: nat)
    ensures v == v / 64 * 64 + v % 64 && v / 64 == v / 4096 * 64 + v / 64 % 64
    ensures v / 4096 == v / 262144 * 64 + v / 4096 % 64
  {
    assert v / 4096 == v / 64 / 64 && v / 262144 == v / 4096 / 64;
  }

  function Encode(text: string): seq<byte> {
    if text == [] then [] else Encode(text[..|text| - 1]) + EncodeRune(text[|text| - 1])
  }

  /** utf8.RuneStart: the two top bits are not 10. */
  predicate RuneStart(b: byte) {
    b / 64 != 2
  }

  lemma RuneStartsOnce(c: char)
    ensures RuneStart(EncodeRune(c)[0])
    ensures forall k :: 1 <= k < |EncodeRune(c)| ==> !RuneStart(EncodeRune(c)[k])
  {
  }

  lemma EncodeOneMore(text: string, c: char, more: string)
    requires more == text + [c]
    ensures Encode(more) == Encode(text) + EncodeRune(c)
  {
    assert more[..|text|] == text;
  }

  lemma {:induction false} EncodeConcat(left: string, right: string)
    ensures Encode(left + right) == Encode(left) + Encode(right)
    decreases |right|
  {
    if right == [] {
      assert left + right == left;
    } else {
      var init, last := right[..|right| - 1], right[|right| - 1];
      EncodeConcat(left, init);
      EncodeOneMore(init, last, right);
      EncodeOneMore(left + init, last, left + right);
      Associate(Encode(left), Encode(init), EncodeRune(last));
    }
  }

  lemma {:induction false} EncodeSplit(text: string, k: nat)
    requires k <= |text|
    ensures Encode(text) == Encode(text[..k]) + Encode(text[k..])
  {
    assert text == text[..k] + text[k..];
    EncodeConcat(text[..k], text[k..]);
  }

  lemma {:induction false} EncodePrefixLength(text: string, k: nat)
    requires k <= |text|
    ensures |Encode(text[..k])| <= |Encode(text)|
    ensures Encode(text[..k]) == Encode(text)[..|Encode(text[..k])|]
    ensures Encode(text[k..]) == Encode(text)[|Encode(text[..k])|..]
  {
    EncodeSplit(text, k);
  }

  /** Byte positions that start a rune are exactly the encoded lengths of the proper prefixes. */
  lemma {:induction false} RuneStartIsBoundary(text: string, at: nat) returns (k: nat)
    requires at < |Encode(text)| && RuneStart(Encode(text)[at])
    ensures k < |text| && |Encode(text[..k])| == at
  {
    var init := text[..|text| - 1];
    RuneStartsOnce(text[|text| - 1]);
    if at < |Encode(init)| {
      k := RuneStartIsBoundary(init, at);
      assert init[..k] == text[..k];
    } else {
      assert Encode(text)[at] == EncodeRune(text[|text| - 1])[at - |Encode(init)|];
      k := |text| - 1;
    }
  }

  /** Within four bytes back from any position there is a rune start. */
  lemma {:induction false} RuneStartNearby(text: string, at: nat) returns (start: nat)
    requires at < |Encode(text)|
    ensures start <= at < start + 4 && RuneStart(Encode(text)[start])
  {
    var init := text[..|text| - 1];
    var last := text[|text| - 1];
    RuneStartsOnce(last);
    if at < |Encode(init)| {
      start := RuneStartNearby(init, at);
    } else {
      start := |Encode(init)|;
      assert Encode(text)[start] == EncodeRune(last)[0];
    }
  }

  // ---------------------------------------------------------------- sanitiser (operation.go)

  /** unicode.IsSpace. */
  predicate IsSpace(c: char) {
    var v := c as int;
    9 <= v <= 13 || v == 32 || v == 0x85 || v == 0xA0 || v == 0x1680 || 0x2000 <= v <= 0x200A ||
    v == 0x2028 || v == 0x2029 || v == 0x202F || v == 0x205F || v == 0x3000
  }

  lemma AsciiSpaces(c: char)
    requires c < '\U{80}'
    ensures IsSpace(c) <==> c in " \t\n\r\U{B}\U{C}"
  {
  }

  /** What the sanitiser needs to know of unicode.IsPrint: the visible ASCII characters are
      printable, and the ASCII space is its only white space. */
  ghost predicate PrintTable(printable: char -> bool) {
    && (forall c :: ' ' <= c <= '~' ==> printable(c))
    && (forall c :: IsSpace(c) && printable(c) ==> c == ' ')
  }

  /** strings.Fields, with the word under way passed along. */
  function FieldsFrom(text: string, word: string): seq<string> {
    var ended := if word == [] then [] else [word];
    if text == [] then ended
    else if IsSpace(text[0]) then ended + FieldsFrom(text[1..], [])
    else FieldsFrom(text[1..], word + [text[0]])
  }

  function MapUnsafe(text: string, printable: char -> bool): (r: string)
    ensures |r| == |text|
    ensures forall k :: 0 <= k < |r| ==> r[k] == if printable(text[k]) then text[k] else ' '
  {
    seq(|text|, k requires 0 <= k < |text| => if printable(text[k]) then text[k] else ' ')
  }

  function Normalise(message: string, printable: char -> bool): string {
    Join(FieldsFrom(MapUnsafe(message, printable), []), " ")
  }

  /** The longest prefix whose encoding fits, found by dropping last runes. */
  function Truncate(text: string, maximumBytes: nat): (r: string)
    ensures r <= text
  {
    if |Encode(text)| <= maximumBytes then text else Truncate(text[..|text| - 1], maximumBytes)
  }

  function Sanitize(message: string, printable: char -> bool, maximumBytes: nat): string {
    Truncate(Normalise(message, printable), maximumBytes)
  }

  /** One line of printable words: no space at the start, none doubled. */
  ghost predicate SingleSpaced(text: string, printable: char -> bool) {
    && (forall k :: 0 <= k < |text| ==> printable(text[k]))
    && (text != [] ==> text[0] != ' ')
    && (forall k :: 0 < k < |text| ==> !(text[k - 1] == ' ' && text[k] == ' '))
  }

  predicate EndsInSpace(text: string) {
    text != [] && text[|text| - 1] == ' '
  }

  ghost predicate Word(word: string, printable: char -> bool) {
    word != [] && forall k :: 0 <= k < |word| ==> printable(word[k]) && word[k] != ' '
  }

  lemma {:induction false} FieldsAreWords(text: string, word: string, printable: char -> bool)
    requires PrintTable(printable)
    requires forall k :: 0 <= k < |text| ==> printable(text[k])
    requires word == [] || Word(word, printable)
    ensures forall k :: 0 <= k < |FieldsFrom(text, word)| ==> Word(FieldsFrom(text, word)[k], printable)
    decreases |text|
  {
    if text != [] {
      if IsSpace(text[0]) {
        FieldsAreWords(text[1..], [], printable);
      } else {
        FieldsAreWords(text[1..], word + [text[0]], printable);
      }
    }
  }

  lemma {:induction false} JoinedWords(words: seq<string>, printable: char -> bool)
    requires printable(' ')
    requires forall k :: 0 <= k < |words| ==> Word(words[k], printable)
    ensures SingleSpaced(Join(words, " "), printable) && !EndsInSpace(Join(words, " "))
    ensures words != [] ==> Join(words, " ") != []
  {
    if |words| > 1 {
      JoinedWords(words[1..], printable);
      var rest := Join(words[1..], " ");
      assert Join(words, " ") == words[0] + (" " + rest);
      assert rest != [];
    }
  }

  /** The normal form: single-spaced, and no space at the end either. */
  lemma NormaliseShape(message: string, printable: char -> bool)
    requires PrintTable(printable)
    ensures SingleSpaced(Normalise(message, printable), printable)
    ensures !EndsInSpace(Normalise(message, printable))
  {
    FieldsAreWords(MapUnsafe(message, printable), [], printable);
    JoinedWords(FieldsFrom(MapUnsafe(message, printable), []), printable);
  }

  function DropFinalSpace(text: string): string {
    if EndsInSpace(text) then text[..|text| - 1] else text
  }

  lemma SingleSpacedTail(word: string, text: string, printable: char -> bool)
    requires PrintTable(printable) && text != [] && IsSpace(text[0])
    requires SingleSpaced(word + text, printable)
    ensures word != [] && text[0] == ' ' && SingleSpaced(text[1..], printable)
    ensures text[1..] != [] ==> DropFinalSpace(text[1..]) != []
    ensures DropFinalSpace(word + text) ==
      if text[1..] == [] then word else word + " " + DropFinalSpace(text[1..])
  {
    var whole := word + text;
    var rest := text[1..];
    assert printable(whole[|word|]) && whole[|word|] == text[0];
    assert forall k :: 0 <= k < |rest| ==> rest[k] == whole[|word| + 1 + k];
    if rest != [] {
      assert whole[|word|] == ' ' && whole[|word| + 1] == rest[0];
      assert EndsInSpace(whole) == EndsInSpace(rest);
      assert whole == word + " " + rest;
    }
  }

  /** Splitting a single-spaced text and joining it again gives it back, less a final space. */
  lemma {:induction false} RejoinSingleSpaced(text: string, word: string, printable: char -> bool)
    requires PrintTable(printable)
    requires SingleSpaced(word + text, printable) && (word == [] || Word(word, printable))
    ensures Join(FieldsFrom(text, word), " ") == DropFinalSpace(word + text)
    decreases |text|
  {
    if text == [] {
      assert word + text == word;
    } else if IsSpace(text[0]) {
      SingleSpacedTail(word, text, printable);
      var words := FieldsFrom(text[1..], []);
      assert [] + text[1..] == text[1..];
      RejoinSingleSpaced(text[1..], [], printable);
      assert FieldsFrom(text, word) == [word] + words;
      assert ([word] + words)[1..] == words;
    } else {
      assert word + [text[0]] + text[1..] == word + text;
      assert printable((word + text)[|word|]);
      RejoinSingleSpaced(text[1..], word + [text[0]], printable);
    }
  }

  /** On a single-spaced text normalising only drops a final space. */
  lemma NormaliseSingleSpaced(text: string, printable: char -> bool)
    requires PrintTable(printable) && SingleSpaced(text, printable)
    ensures Normalise(text, printable) == DropFinalSpace(text)
  {
    assert MapUnsafe(text, printable) == text;
    assert [] + text == text;
    RejoinSingleSpaced(text, [], printable);
  }

  lemma {:induction false} TruncateMaximal(text: string, maximumBytes: nat)
    ensures var r := Truncate(text, maximumBytes);
      && |Encode(r)| <= maximumBytes
      && (r == text || |Encode(text[..|r| + 1])| > maximumBytes)
    ensures |Encode(text)| <= maximumBytes <==> Truncate(text, maximumBytes) == text
  {
    if |Encode(text)| > maximumBytes {
      var init := text[..|text| - 1];
      TruncateMaximal(init, maximumBytes);
      var r := Truncate(init, maximumBytes);
      if r == init {
        assert text[..|r| + 1] == text;
      } else {
        assert text[..|r| + 1] == init[..|r| + 1];
      }
    }
  }

  /** Every sanitised message is the longest rune-aligned prefix of the normal form that fits. */
  lemma SanitizeShape(message: string, printable: char -> bool, maximumBytes: nat)
    requires PrintTable(printable)
    ensures var r := Sanitize(message, printable, maximumBytes);
      var normal := Normalise(message, printable);
      && SingleSpaced(r, printable)
      && r <= normal && |Encode(r)| <= maximumBytes
      && (r == normal || |Encode(normal[..|r| + 1])| > maximumBytes)
  {
    NormaliseShape(message, printable);
    TruncateMaximal(Normalise(message, printable), maximumBytes);
  }

  /** Sanitising again changes nothing exactly when the cut did not leave a final space. */
  lemma SanitizeFixedIff(message: string, printable: char -> bool, maximumBytes: nat)
    requires PrintTable(printable)
    ensures var r := Sanitize(message, printable, maximumBytes);
      && (Sanitize(r, printable, maximumBytes) == r <==> !EndsInSpace(r))
      && Sanitize(r, printable, maximumBytes) == DropFinalSpace(r)
  {
    var r := Sanitize(message, printable, maximumBytes);
    SanitizeShape(message, printable, maximumBytes);
    NormaliseSingleSpaced(r, printable);
    var again := Normalise(r, printable);
    EncodePrefixLength(r, |again|);
  }

  /** Two applications always reach a fixed point. */
  lemma SanitizeTwiceFixed(message: string, printable: char -> bool, maximumBytes: nat)
    requires PrintTable(printable)
    ensures var twice := Sanitize(Sanitize(message, printable, maximumBytes), printable, maximumBytes);
      Sanitize(twice, printable, maximumBytes) == twice
  {
    var r := Sanitize(message, printable, maximumBytes);
    SanitizeFixedIff(message, printable, maximumBytes);
    SanitizeFixedIff(r, printable, maximumBytes);
    SanitizeShape(message, printable, maximumBytes);
  }

  /** The final space appears exactly when the normal form is too long and a space is the last rune
      that still fits. */
  lemma SanitizeEndsInSpaceIff(message: string, printable: char -> bool, maximumBytes: nat)
    requires PrintTable(printable)
    ensures var normal := Normalise(message, printable);
      EndsInSpace(Sanitize(message, printable, maximumBytes)) <==>
      exists k :: 0 < k < |normal| && normal[k - 1] == ' ' &&
        |Encode(normal[..k])| <= maximumBytes < |Encode(normal[..k + 1])|
  {
    var normal := Normalise(message, printable);
    var r := Sanitize(message, printable, maximumBytes);
    NormaliseShape(message, printable);
    TruncateMaximal(normal, maximumBytes);
    assert r == normal[..|r|];
    if EndsInSpace(r) {
      assert normal[|r| - 1] == ' ' && r != normal;
      assert 0 < |r| < |normal|;
    }
    forall k | 0 < k < |normal| && normal[k - 1] == ' ' &&
               |Encode(normal[..k])| <= maximumBytes < |Encode(normal[..k + 1])|
      ensures EndsInSpace(r)
    {
      CutIsUnique(normal, maximumBytes, k, |r|);
    }
  }

  lemma EncodeMonotone(text: string, k: nat, n: nat)
    requires k <= n <= |text|
    ensures |Encode(text[..k])| <= |Encode(text[..n])|
  {
    EncodePrefixLength(text[..n], k);
    assert text[..n][..k] == text[..k];
  }

  lemma CutIsUnique(text: string, maximumBytes: nat, k: nat, n: nat)
    requires k < |text| && |Encode(text[..k])| <= maximumBytes < |Encode(text[..k + 1])|
    requires n <= |text| && |Encode(text[..n])| <= maximumBytes
    requires n == |text| || maximumBytes < |Encode(text[..n + 1])|
    ensures k == n
  {
    if k < n {
      EncodeMonotone(text, k + 1, n);
    } else if n < k {
      EncodeMonotone(text, n + 1, k);
    }
  }

  /** lastRune: the width in bytes of the last rune, found by walking back to a rune start. */
  method LastRune(value: seq<byte>, ghost text: string) returns (size: nat)
    requires value == Encode(text) && text != []
    ensures size == |EncodeRune(text[|text| - 1])|
  {
    ghost var init := text[..|text| - 1];
    RuneStartsOnce(text[|text| - 1]);
    var index := |value| - 1;
    while index >= 0
      invariant |Encode(init)| <= index < |value|
      invariant forall k :: index < k < |value| ==> !RuneStart(value[k])
    {
      if RuneStart(value[index]) {
        assert value[index] == EncodeRune(text[|text| - 1])[index - |Encode(init)|];
        return |value| - index;
      }
      assert value[|Encode(init)|] == EncodeRune(text[|text| - 1])[0];
      index := index - 1;
    }
    assert false;
  }

  /** The byte loop of sanitizeTerminalText computes the encoding of `Sanitize`. */
  method SanitizeTerminalText(message: string, printable: char -> bool, maximumBytes: nat) returns (text: seq<byte>)
    ensures text == Encode(Sanitize(message, printable, maximumBytes))
  {
    ghost var kept := Normalise(message, printable);
    text := Encode(Normalise(message, printable));
    while |text| > maximumBytes
      invariant text == Encode(kept)
      invariant Truncate(kept, maximumBytes) == Sanitize(message, printable, maximumBytes)
      decreases |text|
    {
      var size := LastRune(text, kept);
      text := text[..|text| - size];
      kept := kept[..|kept| - 1];
    }
  }

  // ---------------------------------------------------------------- operation messages

  const MAXIMUM_OPERATION_MESSAGE := 512
  const DEFAULT_MESSAGE := "Operation state changed."

  function SanitizeOperationMessage(message: string, printable: char -> bool): string {
    var text := Sanitize(message, printable, MAXIMUM_OPERATION_MESSAGE);
    if text == "" then DEFAULT_MESSAGE else text
  }

  /** The message test of `validate`. */
  predicate ValidMessage(message: string, printable: char -> bool) {
    message == SanitizeOperationMessage(message, printable) && message != ""
  }

  lemma {:induction false} EncodeLengthBound(text: string)
    ensures |text| <= |Encode(text)| <= 4 * |text|
  {
    if text != [] {
      EncodeLengthBound(text[..|text| - 1]);
    }
  }

  lemma DefaultMessageFixed(printable: char -> bool)
    requires PrintTable(printable)
    ensures Sanitize(DEFAULT_MESSAGE, printable, MAXIMUM_OPERATION_MESSAGE) == DEFAULT_MESSAGE
  {
    assert SingleSpaced(DEFAULT_MESSAGE, printable);
    NormaliseSingleSpaced(DEFAULT_MESSAGE, printable);
    EncodeLengthBound(DEFAULT_MESSAGE);
  }

  /** A sanitised message passes `validate` exactly when the cut left no final space, so the only
      operation records that cannot be written are those whose long message was cut at a space. */
  lemma SanitizedMessageValidIff(message: string, printable: char -> bool)
    requires PrintTable(printable)
    ensures ValidMessage(SanitizeOperationMessage(message, printable), printable) <==>
      !EndsInSpace(Sanitize(message, printable, MAXIMUM_OPERATION_MESSAGE))
  {
    SanitizeFixedIff(message, printable, MAXIMUM_OPERATION_MESSAGE);
    SanitizeShape(message, printable, MAXIMUM_OPERATION_MESSAGE);
    DefaultMessageFixed(printable);
  }

  lemma {:induction false} AsciiLength(text: string)
    requires forall k :: 0 <= k < |text| ==> (text[k] as int) < 0x80
    ensures |Encode(text)| == |text|
  {
    if text != [] {
      AsciiLength(text[..|text| - 1]);
    }
  }

  /** A message that cannot be recorded: 511 letters, a space and one more letter. Start, update and
      finish all refuse to write it, although they sanitise it first. */
  lemma UnwritableMessage(printable: char -> bool)
    requires PrintTable(printable)
    ensures var message := seq(511, _ => 'a') + " b";
      !ValidMessage(SanitizeOperationMessage(message, printable), printable)
  {
    var message := seq(511, _ => 'a') + " b";
    NormaliseSingleSpaced(message, printable);
    assert message[510] == 'a' && message[511] == ' ' && message[512] == 'b';
    AsciiLength(message[..512]);
    AsciiLength(message[..513]);
    SanitizeEndsInSpaceIff(message, printable, MAXIMUM_OPERATION_MESSAGE);
    assert 0 < 512 < |message| && message[512 - 1] == ' ';
    SanitizedMessageValidIff(message, printable);
  }

  // ---------------------------------------------------------------- diagnostic truncation (host.go)

  const MAXIMUM_DIAGNOSTIC_BYTES := 2000
  /** Lengths are Go ints. */
  const INT_LIMIT := 0x8000_0000_0000_0000

  function TrimLeft(text: string): string {
    if text != [] && IsSpace(text[0]) then TrimLeft(text[1..]) else text
  }

  function TrimRight(text: string): string {
    if text != [] && IsSpace(text[|text| - 1]) then TrimRight(text[..|text| - 1]) else text
  }

  lemma {:induction false} TrimLeftShortens(text: string)
    ensures if text == [] || !IsSpace(text[0]) then TrimLeft(text) == text else |TrimLeft(text)| < |text|
  {
    if text != [] && IsSpace(text[0]) {
      TrimLeftShortens(text[1..]);
    }
  }

  lemma {:induction false} TrimRightShortens(text: string)
    ensures if text == [] || !IsSpace(text[|text| - 1]) then TrimRight(text) == text else |TrimRight(text)| < |text|
  {
    if text != [] && IsSpace(text[|text| - 1]) {
      TrimRightShortens(text[..|text| - 1]);
    }
  }

  /** Trimming changes nothing exactly when there is no space at either end. */
  lemma TrimmedIff(text: string)
    ensures TrimRight(TrimLeft(text)) == text <==>
      text == [] || (!IsSpace(text[0]) && !IsSpace(text[|text| - 1]))
  {
    TrimLeftShortens(text);
    TrimRightShortens(TrimLeft(text));
  }

  function UnixNewlines(text: string): string {
    if |text| < 2 then text
    else if text[..2] == "\r\n" then "\n" + UnixNewlines(text[2..])
    else [text[0]] + UnixNewlines(text[1..])
  }

  /** The cleaned diagnostic, before it is cut. */
  function Diagnostic(data: string, printable: char -> bool): string {
    var text := UnixNewlines(TrimRight(TrimLeft(data)));
    seq(|text|, k requires 0 <= k < |text| =>
      if text[k] == '\n' || text[k] == '\t' || printable(text[k]) then text[k] else '\U{FFFD}')
  }

  /** Without the two-character line ending a text stays as it is, and each one becomes a newline. */
  lemma {:induction false} UnixNewlinesPlain(text: string)
    requires forall k :: 0 <= k < |text| - 1 ==> text[k] != '\r' || text[k + 1] != '\n'
    ensures UnixNewlines(text) == text
  {
    if |text| >= 2 {
      assert text[..2][0] == text[0] && text[..2][1] == text[1];
      UnixNewlinesPlain(text[1..]);
    }
  }

  lemma {:induction false} UnixNewlinesJoin(left: string, more: string, read: string)
    requires |more| >= 2 && more[0] == '\r' && more[1] == '\n'
    requires read == "\n" + UnixNewlines(more[2..])
    ensures UnixNewlines(left + more) == UnixNewlines(left) + read
    decreases |left|
  {
    var text := left + more;
    if left == "" {
      assert text == more;
      NewlinesPair(text);
    } else if |left| >= 2 && left[0] == '\r' && left[1] == '\n' {
      assert text[2..] == left[2..] + more;
      UnixNewlinesJoin(left[2..], more, read);
      NewlinesPair(text);
      NewlinesPair(left);
    } else {
      assert text[1..] == left[1..] + more;
      UnixNewlinesJoin(left[1..], more, read);
      NewlinesKeep(text);
      if |left| >= 2 {
        NewlinesKeep(left);
      }
    }
  }

  lemma NewlinesPair(text: string)
    requires |text| >= 2 && text[0] == '\r' && text[1] == '\n'
    ensures UnixNewlines(text) == "\n" + UnixNewlines(text[2..])
  {
    assert text[..2] == "\r\n";
  }

  lemma NewlinesKeep(text: string)
    requires |text| >= 2 && !(text[0] == '\r' && text[1] == '\n')
    ensures UnixNewlines(text) == [text[0]] + UnixNewlines(text[1..])
  {
    assert text[..2][0] == text[0] && text[..2][1] == text[1];
  }

  lemma {:induction false} UnixNewlinesEnds(text: string)
    requires text != "" && text[0] != '\r'
    ensures UnixNewlines(text) != "" && UnixNewlines(text)[0] == text[0]
    ensures UnixNewlines(text)[|UnixNewlines(text)| - 1] == text[|text| - 1]
  {
    if |text| >= 2 {
      assert text[..2][0] == text[0];
      NewlinesEnd(text[1..]);
    }
  }

  lemma {:induction false} NewlinesEnd(text: string)
    requires text != ""
    ensures UnixNewlines(text) != "" && UnixNewlines(text)[|UnixNewlines(text)| - 1] == text[|text| - 1]
  {
    if |text| > 2 && text[..2] == "\r\n" {
      NewlinesEnd(text[2..]);
    } else if |text| == 2 && text == "\r\n" {
      assert text[2..] == "";
    } else if |text| >= 2 {
      NewlinesEnd(text[1..]);
    }
  }

  lemma {:induction false} TrimEnds(text: string)
    ensures TrimRight(text) != "" ==>
      TrimRight(text)[0] == text[0] && !IsSpace(TrimRight(text)[|TrimRight(text)| - 1])
  {
    if text != "" && IsSpace(text[|text| - 1]) {
      TrimEnds(text[..|text| - 1]);
    }
  }

  lemma {:induction false} TrimStarts(text: string)
    ensures TrimLeft(text) != "" ==> !IsSpace(TrimLeft(text)[0])
  {
    if text != "" && IsSpace(text[0]) {
      TrimStarts(text[1..]);
    }
  }

  /** A diagnostic holds only newlines, tabs, printable characters and the replacement character, and neither begins
      nor ends in a space. */
  lemma DiagnosticShape(data: string, printable: char -> bool)
    ensures var text := Diagnostic(data, printable);
      && (forall c :: c in text ==> c == '\n' || c == '\t' || printable(c) || c == '\U{FFFD}')
      && (text != "" ==> !IsSpace(text[0]) && !IsSpace(text[|text| - 1]))
  {
    var trimmed := TrimRight(TrimLeft(data));
    TrimStarts(data);
    TrimEnds(TrimLeft(data));
    if trimmed != "" {
      assert TrimLeft(data) != "";
      UnixNewlinesEnds(trimmed);
    }
  }

  const MARKER_START := "\n... diagnostic truncated; "
  const MARKER_MIDDLE := "original UTF-8 bytes: "
  const MARKER_END := " ...\n"

  function Marker(length: nat): string {
    MARKER_START + (MARKER_MIDDLE + (Decimal(length) + MARKER_END))
  }

  lemma {:induction false} AsciiConcat(left: string, right: string)
    requires |Encode(left)| == |left| && |Encode(right)| == |right|
    ensures |Encode(left + right)| == |left + right|
  {
    EncodeConcat(left, right);
  }

  lemma MarkerPieces()
    ensures |MARKER_START| == |Encode(MARKER_START)| == 27
    ensures |MARKER_MIDDLE| == |Encode(MARKER_MIDDLE)| == 22
    ensures |MARKER_END| == |Encode(MARKER_END)| == 5
  {
    AsciiLength(MARKER_START);
    AsciiLength(MARKER_MIDDLE);
    AsciiLength(MARKER_END);
  }

  lemma NineteenDigits()
    ensures Pow10(19) == 10000000000000000000
  {
    assert Pow10(5) == 100000;
    assert Pow10(10) == 10000000000;
    assert Pow10(15) == 1000000000000000;
  }

  lemma MarkerLength(length: nat)
    requires length < INT_LIMIT
    ensures |Encode(Marker(length))| == |Marker(length)| <= 80
  {
    NineteenDigits();
    DecimalLength(length, 19);
    var digits := Decimal(length);
    AsciiLength(digits);
    MarkerPieces();
    AsciiConcat(digits, MARKER_END);
    AsciiConcat(MARKER_MIDDLE, digits + MARKER_END);
    AsciiConcat(MARKER_START, MARKER_MIDDLE + (digits + MARKER_END));
  }

  /** A prefix and a suffix of `text` around the marker; each is as long as its share of the limit
      allows without cutting a rune, and they do not overlap. */
  ghost predicate CutDiagnostic(text: string, cut: seq<byte>, head: nat, tail: nat) {
    var marker := Encode(Marker(|Encode(text)|));
    var budget := MAXIMUM_DIAGNOSTIC_BYTES - |marker|;
    && head <= tail <= |text|
    && cut == Encode(text[..head]) + marker + Encode(text[tail..])
    && |cut| <= MAXIMUM_DIAGNOSTIC_BYTES
    && (head < |text| ==> |Encode(text[..head])| <= budget / 2 < |Encode(text[..head + 1])|)
    && (tail > 0 ==> |Encode(text[..head])| + |Encode(text[tail - 1..])| > budget)
  }

  lemma {:induction false} BoundaryIsRuneStart(text: string, k: nat)
    requires k < |text|
    ensures |Encode(text[..k])| < |Encode(text[..k + 1])| <= |Encode(text)|
    ensures RuneStart(Encode(text)[|Encode(text[..k])|])
  {
    EncodePrefixLength(text, k + 1);
    assert text[..k + 1][..k] == text[..k];
    RuneStartsOnce(text[k]);
    var at := |Encode(text[..k])|;
    assert Encode(text[..k + 1])[at] == EncodeRune(text[k])[0];
  }

  method HeadEnd(text: seq<byte>, limit: nat) returns (headEnd: nat)
    requires limit < |text|
    ensures headEnd <= limit && (headEnd == 0 || RuneStart(text[headEnd]))
    ensures forall k :: headEnd < k <= limit ==> !RuneStart(text[k])
  {
    headEnd := limit;
    while headEnd > 0 && !RuneStart(text[headEnd])
      invariant headEnd <= limit
      invariant forall k :: headEnd < k <= limit ==> !RuneStart(text[k])
    {
      headEnd := headEnd - 1;
    }
  }

  method TailStart(text: seq<byte>, from: nat) returns (tailStart: nat)
    requires from <= |text|
    ensures from <= tailStart <= |text| && (tailStart < |text| ==> RuneStart(text[tailStart]))
    ensures forall k :: from <= k < tailStart ==> !RuneStart(text[k])
  {
    tailStart := from;
    while tailStart < |text| && !RuneStart(text[tailStart])
      invariant from <= tailStart <= |text|
      invariant forall k :: from <= k < tailStart ==> !RuneStart(text[k])
    {
      tailStart := tailStart + 1;
    }
  }

  method BoundedText(data: string, printable: char -> bool) returns (bounded: seq<byte>)
    requires |Encode(Diagnostic(data, printable))| < INT_LIMIT
    ensures var text := Diagnostic(data, printable);
      if |Encode(text)| <= MAXIMUM_DIAGNOSTIC_BYTES then bounded == Encode(text)
      else exists head, tail :: CutDiagnostic(text, bounded, head, tail)
  {
    ghost var runes := Diagnostic(data, printable);
    var text := Encode(Diagnostic(data, printable));
    if |text| <= MAXIMUM_DIAGNOSTIC_BYTES {
      return text;
    }
    var marker := Encode(Marker(|text|));
    MarkerLength(|text|);
    var contentBudget := MAXIMUM_DIAGNOSTIC_BYTES - |marker|;
    var headEnd := HeadEnd(text, contentBudget / 2);
    var tailStart := TailStart(text, |text| - (contentBudget - headEnd));
    bounded := text[..headEnd] + marker + text[tailStart..];
    ghost var head := HeadCut(runes, headEnd, contentBudget / 2);
    ghost var tail := TailCut(runes, |text| - (contentBudget - headEnd), tailStart);
    CutsOrdered(runes, head, tail);
    assert CutDiagnostic(runes, bounded, head, tail);
  }

  lemma CutsOrdered(text: string, head: nat, tail: nat)
    requires head < |text| && tail <= |text|
    requires |Encode(text[..head])| < |Encode(text[..tail])|
    ensures head <= tail
  {
    if tail < head {
      EncodeMonotone(text, tail, head);
    }
  }

  lemma SuffixLength(text: string, k: nat)
    requires k <= |text|
    ensures |Encode(text[k..])| == |Encode(text)| - |Encode(text[..k])|
  {
    EncodeSplit(text, k);
  }

  lemma HeadCut(text: string, headEnd: nat, limit: nat) returns (head: nat)
    requires headEnd <= limit < |Encode(text)|
    requires headEnd == 0 || RuneStart(Encode(text)[headEnd])
    requires forall k :: headEnd < k <= limit ==> !RuneStart(Encode(text)[k])
    ensures head < |text| && |Encode(text[..head])| == headEnd && limit < |Encode(text[..head + 1])|
    ensures Encode(text[..head]) == Encode(text)[..headEnd]
  {
    if headEnd == 0 {
      head := 0;
    } else {
      head := RuneStartIsBoundary(text, headEnd);
    }
    EncodePrefixLength(text, head);
    BoundaryIsRuneStart(text, head);
    if head + 1 < |text| {
      BoundaryIsRuneStart(text, head + 1);
    } else {
      assert text[..head + 1] == text;
    }
  }

  lemma TailCut(text: string, from: nat, tailStart: nat) returns (tail: nat)
    requires 0 < from <= tailStart <= |Encode(text)|
    requires tailStart < |Encode(text)| ==> RuneStart(Encode(text)[tailStart])
    requires forall k :: from <= k < tailStart ==> !RuneStart(Encode(text)[k])
    ensures 0 < tail <= |text| && |Encode(text[..tail])| == tailStart
    ensures |Encode(text[tail - 1..])| > |Encode(text)| - from
    ensures Encode(text[tail..]) == Encode(text)[tailStart..]
  {
    tail := BoundaryAt(text, tailStart);
    LastRuneBefore(text, tail, from, tailStart);
    SuffixLength(text, tail - 1);
    EncodePrefixLength(text, tail);
  }

  lemma BoundaryAt(text: string, at: nat) returns (k: nat)
    requires 0 < at <= |Encode(text)| && (at < |Encode(text)| ==> RuneStart(Encode(text)[at]))
    ensures 0 < k <= |text| && |Encode(text[..k])| == at
  {
    if at == |Encode(text)| {
      k := |text|;
      assert text[..k] == text;
    } else {
      k := RuneStartIsBoundary(text, at);
    }
    assert Encode(text[..0]) == [];
  }

  /** The rune before the tail begins before the place from which the tail was looked for. */
  lemma LastRuneBefore(text: string, tail: nat, from: nat, tailStart: nat)
    requires 0 < tail <= |text| && |Encode(text[..tail])| == tailStart <= |Encode(text)|
    requires forall k :: from <= k < tailStart ==> !RuneStart(Encode(text)[k])
    ensures |Encode(text[..tail - 1])| < from
  {
    BoundaryIsRuneStart(text, tail - 1);
  }
}
