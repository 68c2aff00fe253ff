/** The list of phone keys for mobile SSH (mobile_access.go). */
module AuthorizedKeys {
  // The keys are Ed25519 public keys in the form of section 4 of RFC 8709, as base64 of the wire format of section 5 of
  // RFC 4251.

  import opened Common
  import opened Ordering
  import Base64
  import TerminalText

  const MAXIMUM_KEYS := 8
  const MAXIMUM_KEY_SIZE := 1024
  const ALGORITHM := "ssh-ed25519"

  // ---------------------------------------------------------------- one key

  /** A four-byte big-endian number. */
  function Uint32(data: seq<byte>): nat
    requires |data| >= 4
  {
    data[0] as int * 0x100_0000 + data[1] as int * 0x1_0000 + data[2] as int * 0x100 + data[3] as int
  }

  /** readSSHPublicKeyString: a length and that many bytes, and what follows. */
  function ReadString(data: seq<byte>): Option<(seq<byte>, seq<byte>)> {
    if |data| < 4 || Uint32(data) > |data| - 4 then None
    else Some((data[4..4 + Uint32(data)], data[4 + Uint32(data)..]))
  }

  function Bytes(text: string): seq<byte> {
    TerminalText.Encode(text)
  }

  /** The 32 key bytes inside a wire-format public key. */
  function KeyBytes(raw: seq<byte>): Option<seq<byte>> {
    var algorithm := ReadString(raw);
    if algorithm.None? || algorithm.value.0 != Bytes(ALGORITHM) then None
    else
      var key := ReadString(algorithm.value.1);
      if key.None? || |key.value.0| != 32 || key.value.1 != [] then None else Some(key.value.0)
  }

  /** One bounded line without space around it. */
  predicate BoundedLine(value: string) {
    && value != "" && |Bytes(value)| <= MAXIMUM_KEY_SIZE
    && TerminalText.TrimRight(TerminalText.TrimLeft(value)) == value
    && '\0' !in value && '\r' !in value && '\n' !in value
  }

  /** The key among the fields of a line: the algorithm, the base64 text and perhaps a comment. */
  function KeyOfFields(fields: seq<string>): Option<string> {
    if |fields| < 2 || |fields| > 3 || fields[0] != ALGORITHM then None
    else
      var raw := Base64.Decode(fields[1]);
      if raw.None? || Base64.Encode(raw.value) != fields[1] || KeyBytes(raw.value).None? then None
      else Some(ALGORITHM + " " + fields[1])
  }

  /** canonicalEd25519PublicKey: the key without its comment. */
  function Canonical(value: string): Option<string> {
    if BoundedLine(value) then KeyOfFields(TerminalText.FieldsFrom(value, "")) else None
  }

  /** A key is only ever taken from one line without NUL, of bounded size, that begins and ends in no space. */
  lemma CanonicalIff(value: string)
    ensures Canonical(value).Some? <==>
      && value != "" && |Bytes(value)| <= MAXIMUM_KEY_SIZE
      && !TerminalText.IsSpace(value[0]) && !TerminalText.IsSpace(value[|value| - 1])
      && (forall c :: c in value ==> c != '\0' && c != '\r' && c != '\n')
      && KeyOfFields(TerminalText.FieldsFrom(value, "")).Some?
  {
    TerminalText.TrimmedIff(value);
  }

  // ---------------------------------------------------------------- the canonical text of a key

  /** The wire format of a key: 51 bytes. */
  function Wire(key: seq<byte>): seq<byte> {
    [0, 0, 0, 11] + Bytes(ALGORITHM) + [0, 0, 0, 32] + key
  }

  function KeyText(key: seq<byte>): string {
    ALGORITHM + " " + Base64.Encode(Wire(key))
  }

  lemma AlgorithmBytes()
    ensures |Bytes(ALGORITHM)| == 11
  {
    TerminalText.AsciiLength(ALGORITHM);
  }

  lemma LengthBytes(data: seq<byte>, n: nat)
    requires |data| >= 4 && n < 256
    ensures Uint32(data) == n <==> data[..4] == [0, 0, 0, n]
  {
    if Uint32(data) == n {
      assert data[0] == 0 && data[1] == 0 && data[2] == 0;
    }
    if data[..4] == [0, 0, 0, n] {
      assert data[0] == data[..4][0] && data[1] == data[..4][1] && data[2] == data[..4][2] && data[3] == data[..4][3];
    }
  }

  lemma ReadStringIff(data: seq<byte>, value: seq<byte>, rest: seq<byte>)
    requires |value| < 256
    ensures ReadString(data) == Some((value, rest)) <==> data == [0, 0, 0, |value|] + value + rest
  {
    if |data| >= 4 {
      LengthBytes(data, |value|);
    }
    if ReadString(data) == Some((value, rest)) {
      assert data == data[..4] + data[4..4 + |value|] + data[4 + |value|..];
    }
    if data == [0, 0, 0, |value|] + value + rest {
      assert data[..4] == [0, 0, 0, |value|];
    }
  }

  /** A wire key reads back, and nothing else does. */
  lemma KeyBytesIff(raw: seq<byte>, key: seq<byte>)
    requires |key| == 32
    ensures KeyBytes(raw) == Some(key) <==> raw == Wire(key)
  {
    AlgorithmBytes();
    var after := [0, 0, 0, 32] + key;
    assert Wire(key) == [0, 0, 0, 11] + Bytes(ALGORITHM) + after;
    assert after == [0, 0, 0, 32] + key + [];
    ReadStringIff(after, key, []);
    if KeyBytes(raw) == Some(key) {
      var rest := ReadString(raw).value.1;
      ReadStringIff(raw, Bytes(ALGORITHM), rest);
      ReadStringIff(rest, key, []);
    }
    ReadStringIff(raw, Bytes(ALGORITHM), after);
  }

  // ---------------------------------------------------------------- canonical keys

  predicate Unspaced(text: string) {
    text != "" && forall k :: 0 <= k < |text| ==> !TerminalText.IsSpace(text[k])
  }

  lemma {:induction false} FieldsOfWord(text: string, word: string, rest: string)
    requires text == "" || Unspaced(text)
    requires rest == "" || TerminalText.IsSpace(rest[0])
    ensures TerminalText.FieldsFrom(text + rest, word) == TerminalText.FieldsFrom(rest, word + text)
    decreases |text|
  {
    if text == "" {
      assert text + rest == rest && word + text == word;
    } else {
      assert (text + rest)[1..] == text[1..] + rest;
      assert word + [text[0]] + text[1..] == word + text;
      FieldsOfWord(text[1..], word + [text[0]], rest);
    }
  }

  lemma SpaceEndsField(word: string, rest: string)
    requires word != ""
    ensures TerminalText.FieldsFrom(" " + rest, word) == [word] + TerminalText.FieldsFrom(rest, "")
  {
    assert (" " + rest)[1..] == rest;
  }

  lemma LoneField(text: string)
    requires Unspaced(text)
    ensures TerminalText.FieldsFrom(text, "") == [text]
  {
    FieldsOfWord(text, "", "");
    assert text + "" == text && "" + text == text;
  }

  lemma FieldsOfPair(a: string, b: string, text: string)
    requires Unspaced(a) && Unspaced(b) && text == a + " " + b
    ensures TerminalText.FieldsFrom(text, "") == [a, b]
  {
    assert text == a + (" " + b);
    FieldsOfWord(a, "", " " + b);
    assert "" + a == a;
    SpaceEndsField(a, b);
    LoneField(b);
  }

  lemma AlphabetPlain(c: char)
    requires Base64.InAlphabet(c) || c == '='
    ensures !TerminalText.IsSpace(c) && c != '\0' && c != '\r' && c != '\n' && (c as int) < 0x80
  {
  }

  predicate SingleLineAscii(text: string) {
    forall k :: 0 <= k < |text| ==> text[k] != '\0' && text[k] != '\r' && text[k] != '\n' && (text[k] as int) < 0x80
  }

  lemma EncodedPlain(raw: seq<byte>)
    requires |raw| == 51
    ensures |Base64.Encode(raw)| == 68 && Unspaced(Base64.Encode(raw)) && SingleLineAscii(Base64.Encode(raw))
  {
    Base64.EncodedLength(raw);
    PlainText(Base64.Encode(raw));
  }

  lemma PlainText(text: string)
    requires text != "" && Base64.Letters(text)
    ensures Unspaced(text) && SingleLineAscii(text)
  {
    forall k | 0 <= k < |text|
      ensures !TerminalText.IsSpace(text[k]) && text[k] != '\0' && text[k] != '\r' && text[k] != '\n'
      ensures (text[k] as int) < 0x80
    {
      AlphabetPlain(text[k]);
    }
  }

  lemma WireLength(key: seq<byte>)
    requires |key| == 32
    ensures |Wire(key)| == 51
  {
    AlgorithmBytes();
  }

  lemma SingleLineConcat(a: string, b: string)
    requires SingleLineAscii(a) && SingleLineAscii(b)
    ensures SingleLineAscii(a + b)
  {
  }

  /** The shape of a key's text: 51 wire bytes, 68 base64 characters, 80 characters and bytes in all. */
  lemma KeyTextShape(key: seq<byte>)
    requires |key| == 32
    ensures |Wire(key)| == 51 && |Base64.Encode(Wire(key))| == 68
    ensures |KeyText(key)| == 80 == |Bytes(KeyText(key))| && SingleLineAscii(KeyText(key))
  {
    WireLength(key);
    EncodedPlain(Wire(key));
    AlgorithmLine();
    SingleLineConcat(ALGORITHM + " ", Base64.Encode(Wire(key)));
    TerminalText.AsciiLength(KeyText(key));
  }

  lemma AlgorithmLine()
    ensures SingleLineAscii(ALGORITHM + " ") && |ALGORITHM| == 11
  {
  }

  lemma TrimmedText(text: string)
    requires text != "" && !TerminalText.IsSpace(text[0]) && !TerminalText.IsSpace(text[|text| - 1])
    ensures TerminalText.TrimRight(TerminalText.TrimLeft(text)) == text
  {
  }

  lemma AlgorithmUnspaced()
    ensures Unspaced(ALGORITHM)
  {
  }

  lemma Ends(a: string, b: string, text: string)
    requires Unspaced(a) && Unspaced(b) && text == a + " " + b
    ensures text != "" && !TerminalText.IsSpace(text[0]) && !TerminalText.IsSpace(text[|text| - 1])
  {
    assert text[0] == a[0] && text[|text| - 1] == b[|b| - 1];
  }

  lemma AcceptedLine(text: string)
    requires SingleLineAscii(text) && 0 < |text| <= MAXIMUM_KEY_SIZE
    requires !TerminalText.IsSpace(text[0]) && !TerminalText.IsSpace(text[|text| - 1])
    ensures BoundedLine(text)
  {
    TerminalText.AsciiLength(text);
    TrimmedText(text);
  }

  lemma AcceptedFields(encoded: string, raw: seq<byte>, fields: seq<string>)
    requires Base64.Decode(encoded) == Some(raw) && Base64.Encode(raw) == encoded && KeyBytes(raw).Some?
    requires fields == [ALGORITHM, encoded]
    ensures KeyOfFields(fields) == Some(ALGORITHM + " " + encoded)
  {
  }

  /** The text of every 32-byte key is accepted, and is its own canonical form. */
  lemma KeyTextCanonical(key: seq<byte>)
    requires |key| == 32
    ensures Canonical(KeyText(key)) == Some(KeyText(key))
  {
    KeyTextShape(key);
    EncodedPlain(Wire(key));
    Base64.RoundTrip(Wire(key));
    KeyBytesIff(Wire(key), key);
    var encoded := Base64.Encode(Wire(key));
    AlgorithmUnspaced();
    FieldsOfPair(ALGORITHM, encoded, KeyText(key));
    AcceptedFields(encoded, Wire(key), [ALGORITHM, encoded]);
    Ends(ALGORITHM, encoded, KeyText(key));
    AcceptedLine(KeyText(key));
  }

  /** Whatever is accepted has the canonical text of one 32-byte key. */
  lemma CanonicalIsKeyText(value: string) returns (key: seq<byte>)
    requires Canonical(value).Some?
    ensures |key| == 32 && Canonical(value) == Some(KeyText(key))
  {
    var fields := TerminalText.FieldsFrom(value, "");
    var raw := Base64.Decode(fields[1]).value;
    key := KeyBytes(raw).value;
    KeyBytesIff(raw, key);
  }

  /** Different keys have different texts. */
  lemma KeyTextInjective(a: seq<byte>, b: seq<byte>)
    requires |a| == 32 && |b| == 32 && KeyText(a) == KeyText(b)
    ensures a == b
  {
    assert Base64.Encode(Wire(a)) == KeyText(a)[12..] == KeyText(b)[12..] == Base64.Encode(Wire(b));
    Base64.RoundTrip(Wire(a));
    Base64.RoundTrip(Wire(b));
    KeyBytesIff(Wire(a), a);
    KeyBytesIff(Wire(b), b);
  }

  // ---------------------------------------------------------------- the list

  type Form = string -> Option<string>

  /** The canonical forms of a list, sorted; none when a text is refused or repeated. */
  function Collect(form: Form, values: seq<string>): (r: Option<seq<string>>)
    ensures r.Some? ==> StrictlySorted(r.value)
  {
    if values == [] then Some([])
    else
      var rest, key := Collect(form, values[..|values| - 1]), form(values[|values| - 1]);
      if rest.None? || key.None? || key.value in rest.value then None else Some(Insert(rest.value, key.value))
  }

  ghost predicate AllFormed(forms: seq<Option<string>>) {
    forall i :: 0 <= i < |forms| ==> forms[i].Some?
  }

  /** Every text has a form, and no two the same. */
  ghost predicate Acceptable(form: Form, values: seq<string>) {
    AllFormed(Map(form, values)) && NoRepeat(Map(form, values))
  }

  lemma AcceptableOneMore(form: Form, values: seq<string>, value: string)
    ensures Map(form, values + [value]) == Map(form, values) + [form(value)]
    ensures Acceptable(form, values + [value]) <==>
      Acceptable(form, values) && form(value).Some? && form(value) !in Map(form, values)
  {
    var forms := Map(form, values);
    assert Map(form, values + [value]) == forms + [form(value)];
    NoRepeatOneMore(forms, form(value));
    if AllFormed(forms + [form(value)]) {
      assert forall i :: 0 <= i < |forms| ==> (forms + [form(value)])[i] == forms[i];
      assert (forms + [form(value)])[|forms|].Some?;
    }
  }

  /** The sorted list says which forms there are. */
  lemma {:induction false} CollectIff(form: Form, values: seq<string>)
    ensures Collect(form, values).Some? <==> Acceptable(form, values)
    ensures Collect(form, values).Some? ==> forall key :: key in Collect(form, values).value <==>
      Some(key) in Map(form, values)
    ensures Collect(form, values).Some? ==> |Collect(form, values).value| == |values|
  {
    if values != [] {
      var before, last := values[..|values| - 1], values[|values| - 1];
      CollectIff(form, before);
      assert values == before + [last];
      AcceptableOneMore(form, before, last);
      if Collect(form, values).Some? {
        InsertedLength(Collect(form, before).value, form(last).value);
      }
    }
  }

  lemma {:induction false} InsertedLength(s: seq<string>, x: string)
    requires StrictlySorted(s) && x !in s
    ensures |Insert(s, x)| == |s| + 1
    decreases |s|
  {
    if s != [] && !Less(x, s[0]) {
      InsertLater(s, x);
      InsertedLength(s[1..], x);
    }
  }

  /** The loop of canonicalizeMobileSSHAuthorizedKeys, and its sort. */
  method CollectKeys(form: Form, values: seq<string>) returns (result: Option<seq<string>>)
    ensures result == Collect(form, values)
  {
    var seen: set<string> := {};
    CollectIff(form, values);
    for i := 0 to |values|
      invariant Acceptable(form, values[..i]) && forall key :: key in seen <==> Some(key) in Map(form, values[..i])
    {
      var key := form(values[i]);
      assert values[..i + 1] == values[..i] + [values[i]];
      AcceptableOneMore(form, values[..i], values[i]);
      if key.None? || key.value in seen {
        NotAcceptable(form, values, i + 1);
        return None;
      }
      seen := seen + {key.value};
    }
    assert values[..|values|] == values;
    var keys := Sorted(seen);
    SortedUnique(keys, Collect(form, values).value);
    result := Some(keys);
  }

  lemma NotAcceptable(form: Form, values: seq<string>, n: nat)
    requires n <= |values| && !Acceptable(form, values[..n])
    ensures !Acceptable(form, values)
  {
    if Acceptable(form, values) {
      AcceptablePrefix(form, values, n);
    }
  }

  lemma AcceptablePrefix(form: Form, values: seq<string>, n: nat)
    requires n <= |values| && Acceptable(form, values)
    ensures Acceptable(form, values[..n])
  {
    var part, all := Map(form, values[..n]), Map(form, values);
    assert part == all[..n];
    forall i, j | 0 <= i < j < n ensures part[i] != part[j] {
      assert all[i] != all[j];
    }
    assert forall i :: 0 <= i < n ==> part[i] == all[i];
  }

  /** canonicalizeMobileSSHAuthorizedKeys. */
  function Canonicalized(values: seq<string>): (r: Option<seq<string>>)
    ensures r.Some? ==> StrictlySorted(r.value)
  {
    if |values| > MAXIMUM_KEYS then None else Collect(Canonical, values)
  }

  method CanonicalizeKeys(values: seq<string>) returns (result: Option<seq<string>>)
    ensures result == Canonicalized(values)
  {
    if |values| > MAXIMUM_KEYS {
      return None;
    }
    result := CollectKeys(Canonical, values);
  }

  // ---------------------------------------------------------------- the file

  function EncodeKeys(keys: seq<string>): Option<string> {
    var canonical := Canonicalized(keys);
    if canonical.None? then None
    else if canonical.value == [] then Some("")
    else Some(Join(canonical.value, "\n") + "\n")
  }

  /** strings.Split(text, "\n"). */
  function SplitLines(text: string): (r: seq<string>)
    ensures r != []
  {
    if text == "" then [""]
    else if text[0] == '\n' then [""] + SplitLines(text[1..])
    else
      var rest := SplitLines(text[1..]);
      [[text[0]] + rest[0]] + rest[1..]
  }

  function DecodeKeys(data: string): Option<seq<string>> {
    if data == "" then Some([])
    else if |Bytes(data)| > MAXIMUM_KEYS * MAXIMUM_KEY_SIZE || data[|data| - 1] != '\n' || '\r' in data then None
    else
      var keys := Canonicalized(SplitLines(data[..|data| - 1]));
      if keys.None? || EncodeKeys(keys.value) != Some(data) then None else keys
  }

  // ---------------------------------------------------------------- the codec is canonical

  /** The canonical lists: sorted, without repeats, each the text of a key. */
  ghost predicate CanonicalList(keys: seq<string>) {
    && |keys| <= MAXIMUM_KEYS && StrictlySorted(keys)
    && forall k :: 0 <= k < |keys| ==> IsKeyText(keys[k])
  }

  ghost predicate IsKeyText(text: string) {
    exists key :: |key| == 32 && text == KeyText(key)
  }

  lemma FormAmong(form: Form, values: seq<string>, key: string)
    requires Collect(form, values).Some?
    ensures key in Collect(form, values).value <==> exists i :: 0 <= i < |values| && form(values[i]) == Some(key)
  {
    CollectIff(form, values);
    var forms := Map(form, values);
    if key in Collect(form, values).value {
      var i :| 0 <= i < |forms| && forms[i] == Some(key);
      assert form(values[i]) == Some(key);
    }
    if exists i :: 0 <= i < |values| && form(values[i]) == Some(key) {
      var i :| 0 <= i < |values| && form(values[i]) == Some(key);
      assert forms[i] == Some(key);
    }
  }

  lemma FormIsKeyText(value: string, text: string)
    requires Canonical(value) == Some(text)
    ensures IsKeyText(text)
  {
    var key := CanonicalIsKeyText(value);
  }

  /** Canonicalising gives a canonical list of the given keys' forms. */
  lemma CanonicalizedIsCanonical(values: seq<string>)
    requires Canonicalized(values).Some?
    ensures CanonicalList(Canonicalized(values).value) && |Canonicalized(values).value| == |values|
    ensures forall key :: key in Canonicalized(values).value <==>
      exists i :: 0 <= i < |values| && Canonical(values[i]) == Some(key)
  {
    var keys := Canonicalized(values).value;
    CollectIff(Canonical, values);
    forall key ensures key in keys <==> exists i :: 0 <= i < |values| && Canonical(values[i]) == Some(key) {
      FormAmong(Canonical, values, key);
    }
    forall k | 0 <= k < |keys| ensures IsKeyText(keys[k]) {
      assert keys[k] in keys;
      var i :| 0 <= i < |values| && Canonical(values[i]) == Some(keys[k]);
      FormIsKeyText(values[i], keys[k]);
    }
  }

  /** And leaves a canonical list alone. */
  lemma CanonicalListFixed(keys: seq<string>)
    requires CanonicalList(keys)
    ensures Canonicalized(keys) == Some(keys)
  {
    var forms := Map(Canonical, keys);
    forall k | 0 <= k < |keys| ensures forms[k] == Some(keys[k]) {
      assert IsKeyText(keys[k]);
      var key :| |key| == 32 && keys[k] == KeyText(key);
      KeyTextCanonical(key);
    }
    forall i, j | 0 <= i < j < |keys| ensures forms[i] != forms[j] {
      assert Less(keys[i], keys[j]);
      LessTotal(keys[i], keys[j]);
    }
    CollectIff(Canonical, keys);
    SortedUnique(Collect(Canonical, keys).value, keys);
  }

  lemma CollectPermutes(form: Form, a: seq<string>, b: seq<string>)
    requires multiset(a) == multiset(b)
    ensures Collect(form, a) == Collect(form, b)
  {
    var formsA, formsB := Map(form, a), Map(form, b);
    MapPermutes(form, a, b);
    assert forall x :: x in formsA <==> x in multiset(formsA);
    assert forall x :: x in formsB <==> x in multiset(formsB);
    CollectIff(form, a);
    CollectIff(form, b);
    if Acceptable(form, a) {
      AcceptablePermutes(formsA, formsB);
    }
    if Acceptable(form, b) {
      AcceptablePermutes(formsB, formsA);
    }
    if Collect(form, a).Some? {
      SortedUnique(Collect(form, a).value, Collect(form, b).value);
    }
  }

  /** Encoding ignores the order of its input: it gives the same text, or refuses both. */
  lemma EncodeIgnoresOrder(a: seq<string>, b: seq<string>)
    requires multiset(a) == multiset(b)
    ensures Canonicalized(a) == Canonicalized(b) && EncodeKeys(a) == EncodeKeys(b)
  {
    assert |a| == |multiset(a)| == |b|;
    CollectPermutes(Canonical, a, b);
  }

  lemma AcceptablePermutes(a: seq<Option<string>>, b: seq<Option<string>>)
    requires multiset(a) == multiset(b) && AllFormed(a) && NoRepeat(a)
    ensures AllFormed(b) && NoRepeat(b)
  {
    NoRepeatPermutes(a, b);
    forall i | 0 <= i < |b| ensures b[i].Some? {
      assert b[i] in multiset(a);
    }
  }

  function FileText(keys: seq<string>): string {
    if keys == [] then "" else Join(keys, "\n") + "\n"
  }

  predicate FileChars(text: string) {
    forall k :: 0 <= k < |text| ==> text[k] != '\r' && (text[k] as int) < 0x80
  }

  lemma FileTextOneMore(keys: seq<string>)
    requires keys != []
    ensures FileText(keys) == keys[0] + "\n" + FileText(keys[1..])
  {
    if |keys| > 1 {
      var rest := Join(keys[1..], "\n");
      assert keys[0] + "\n" + rest + "\n" == keys[0] + "\n" + (rest + "\n");
    }
  }

  /** A line of the file: 80 characters, none of them a line break. */
  predicate KeyLine(text: string) {
    |text| == 80 && SingleLineAscii(text)
  }

  /** Every key takes 81 characters of the file, so the size limit never refuses an encoded file. */
  lemma {:induction false} FileTextShape(keys: seq<string>)
    requires forall k :: 0 <= k < |keys| ==> KeyLine(keys[k])
    ensures |FileText(keys)| == 81 * |keys| && FileChars(FileText(keys))
  {
    if keys != [] {
      FileTextOneMore(keys);
      FileTextShape(keys[1..]);
    }
  }

  lemma KeyLines(keys: seq<string>)
    requires CanonicalList(keys)
    ensures forall k :: 0 <= k < |keys| ==> KeyLine(keys[k])
  {
    forall k | 0 <= k < |keys| ensures KeyLine(keys[k]) {
      assert IsKeyText(keys[k]);
      var key :| |key| == 32 && keys[k] == KeyText(key);
      KeyTextShape(key);
    }
  }

  lemma {:induction false} FirstLine(line: string, rest: string)
    requires '\n' !in line
    ensures SplitLines(line) == [line]
    ensures SplitLines(line + "\n" + rest) == [line] + SplitLines(rest)
  {
    if line == "" {
      assert (line + "\n" + rest)[1..] == rest;
    } else {
      FirstLine(line[1..], rest);
      assert (line + "\n" + rest)[1..] == line[1..] + "\n" + rest;
      assert [line[0]] + line[1..] == line;
    }
  }

  lemma {:induction false} LinesOfFile(keys: seq<string>)
    requires keys != [] && forall k :: 0 <= k < |keys| ==> '\n' !in keys[k]
    ensures SplitLines(Join(keys, "\n")) == keys
  {
    if |keys| == 1 {
      FirstLine(keys[0], "");
    } else {
      LinesOfFile(keys[1..]);
      FirstLine(keys[0], Join(keys[1..], "\n"));
      assert keys == [keys[0]] + keys[1..];
    }
  }

  /** Decoding the file of a canonical list gives the list. */
  lemma DecodedCanonical(keys: seq<string>)
    requires CanonicalList(keys)
    ensures DecodeKeys(FileText(keys)) == Some(keys)
  {
    if keys != [] {
      var data := FileText(keys);
      KeyLines(keys);
      FileTextShape(keys);
      TerminalText.AsciiLength(data);
      assert data[..|data| - 1] == Join(keys, "\n");
      LinesOfFile(keys);
      CanonicalListFixed(keys);
    }
  }

  /** Decoding undoes encoding: it gives the given keys in canonical form and sorted. */
  lemma DecodeUndoesEncode(keys: seq<string>)
    requires EncodeKeys(keys).Some?
    ensures DecodeKeys(EncodeKeys(keys).value) == Canonicalized(keys)
    ensures |EncodeKeys(keys).value| == 81 * |keys|
  {
    CanonicalizedIsCanonical(keys);
    var canonical := Canonicalized(keys).value;
    DecodedCanonical(canonical);
    KeyLines(canonical);
    FileTextShape(canonical);
    CanonicalListFixed(canonical);
  }

  /** Decoding accepts exactly the files that encoding writes, each as the one canonical list that encodes to it. */
  lemma DecodeAcceptsOnlyEncoded(data: string, keys: seq<string>)
    ensures DecodeKeys(data) == Some(keys) <==> CanonicalList(keys) && EncodeKeys(keys) == Some(data)
  {
    if DecodeKeys(data) == Some(keys) {
      if data != "" {
        CanonicalizedIsCanonical(SplitLines(data[..|data| - 1]));
      }
    }
    if CanonicalList(keys) {
      CanonicalListFixed(keys);
      DecodedCanonical(keys);
    }
  }
}
