/** The standard base64 encoding with padding: section 4 of RFC 4648. As Go's decoder does, decoding ignores the bits
    that padding leaves unused; it undoes encoding, but different texts can decode to the same bytes. */
module Base64 {
  import opened Common

  type sextet = v: int | 0 <= v < 64

  function CharOf(v: sextet): char {
    if v < 26 then ('A' as int + v) as char
    else if v < 52 then ('a' as int + v - 26) as char
    else if v < 62 then ('0' as int + v - 52) as char
    else if v == 62 then '+' else '/'
  }

  predicate InAlphabet(c: char) {
    'A' <= c <= 'Z' || 'a' <= c <= 'z' || '0' <= c <= '9' || c == '+' || c == '/'
  }

  function ValueOf(c: char): sextet
    requires InAlphabet(c)
  {
    if 'A' <= c <= 'Z' then c as int - 'A' as int
    else if 'a' <= c <= 'z' then c as int - 'a' as int + 26
    else if '0' <= c <= '9' then c as int - '0' as int + 52
    else if c == '+' then 62 else 63
  }

  lemma CharRoundTrip(v: sextet)
    ensures InAlphabet(CharOf(v)) && ValueOf(CharOf(v)) == v
  {
  }

  /** The first characters of a group: of one, two or three bytes. */
  function First(a: byte): sextet { a / 4 }
  function Second(a: byte, b: byte): sextet { a % 4 * 16 + b / 16 }
  function Third(b: byte, c: byte): sextet { b % 16 * 4 + c / 64 }
  function Fourth(c: byte): sextet { c % 64 }

  function Encode(raw: seq<byte>): string {
    if raw == [] then ""
    else if |raw| == 1 then [CharOf(First(raw[0])), CharOf(Second(raw[0], 0)), '=', '=']
    else if |raw| == 2 then [CharOf(First(raw[0])), CharOf(Second(raw[0], raw[1])), CharOf(Third(raw[1], 0)), '=']
    else
      [CharOf(First(raw[0])), CharOf(Second(raw[0], raw[1])), CharOf(Third(raw[1], raw[2])), CharOf(Fourth(raw[2]))]
      + Encode(raw[3..])
  }

  function ByteOne(v: sextet, w: sextet): byte { v * 4 + w / 16 }
  function ByteTwo(w: sextet, x: sextet): byte { w % 16 * 16 + x / 4 }
  function ByteThree(x: sextet, y: sextet): byte { x % 4 * 64 + y }

  /** Decoding, which does not look at the bits that padding leaves unused. */
  function Decode(text: string): Option<seq<byte>> {
    if text == "" then Some([])
    else if |text| < 4 || !InAlphabet(text[0]) || !InAlphabet(text[1]) then None
    else
      var v, w := ValueOf(text[0]), ValueOf(text[1]);
      if |text| == 4 && text[2] == '=' && text[3] == '=' then Some([ByteOne(v, w)])
      else if !InAlphabet(text[2]) then None
      else
        var x := ValueOf(text[2]);
        if |text| == 4 && text[3] == '=' then Some([ByteOne(v, w), ByteTwo(w, x)])
        else if !InAlphabet(text[3]) then None
        else
          var rest := Decode(text[4..]);
          if rest.None? then None
          else Some([ByteOne(v, w), ByteTwo(w, x), ByteThree(x, ValueOf(text[3]))] + rest.value)
  }

  lemma GroupRoundTrip(a: byte, b: byte, c: byte)
    ensures ByteOne(First(a), Second(a, b)) == a && ByteTwo(Second(a, b), Third(b, c)) == b
    ensures ByteThree(Third(b, c), Fourth(c)) == c
  {
  }

  lemma DecodeOne(text: string)
    requires |text| == 4 && InAlphabet(text[0]) && InAlphabet(text[1]) && text[2] == '=' && text[3] == '='
    ensures Decode(text) == Some([ByteOne(ValueOf(text[0]), ValueOf(text[1]))])
  {
  }

  lemma DecodeTwo(text: string)
    requires |text| == 4 && InAlphabet(text[0]) && InAlphabet(text[1]) && InAlphabet(text[2]) && text[3] == '='
    ensures Decode(text) ==
      Some([ByteOne(ValueOf(text[0]), ValueOf(text[1])), ByteTwo(ValueOf(text[1]), ValueOf(text[2]))])
  {
  }

  lemma OneByte(a: byte, text: string)
    requires text == [CharOf(First(a)), CharOf(Second(a, 0)), '=', '=']
    ensures Decode(text) == Some([a])
  {
    CharRoundTrip(First(a));
    CharRoundTrip(Second(a, 0));
    DecodeOne(text);
    GroupRoundTrip(a, 0, 0);
  }

  lemma TwoBytes(a: byte, b: byte, text: string)
    requires text == [CharOf(First(a)), CharOf(Second(a, b)), CharOf(Third(b, 0)), '=']
    ensures Decode(text) == Some([a, b])
  {
    CharRoundTrip(First(a));
    CharRoundTrip(Second(a, b));
    CharRoundTrip(Third(b, 0));
    DecodeTwo(text);
    GroupRoundTrip(a, b, 0);
  }

  /** The text begins with the characters of these four values. */
  predicate Spells(text: string, v: sextet, w: sextet, x: sextet, y: sextet) {
    && |text| >= 4 && InAlphabet(text[0]) && InAlphabet(text[1]) && InAlphabet(text[2]) && InAlphabet(text[3])
    && ValueOf(text[0]) == v && ValueOf(text[1]) == w && ValueOf(text[2]) == x && ValueOf(text[3]) == y
  }

  lemma DecodeFour(text: string, v: sextet, w: sextet, x: sextet, y: sextet)
    requires Spells(text, v, w, x, y) && Decode(text[4..]).Some?
    ensures Decode(text) == Some([ByteOne(v, w), ByteTwo(w, x), ByteThree(x, y)] + Decode(text[4..]).value)
  {
  }

  lemma EncodeSpells(raw: seq<byte>)
    requires |raw| >= 3
    ensures var text := Encode(raw);
      && Spells(text, First(raw[0]), Second(raw[0], raw[1]), Third(raw[1], raw[2]), Fourth(raw[2]))
      && text[4..] == Encode(raw[3..])
  {
    CharRoundTrip(First(raw[0]));
    CharRoundTrip(Second(raw[0], raw[1]));
    CharRoundTrip(Third(raw[1], raw[2]));
    CharRoundTrip(Fourth(raw[2]));
  }

  lemma FullGroup(raw: seq<byte>, text: string)
    requires |raw| >= 3 && Spells(text, First(raw[0]), Second(raw[0], raw[1]), Third(raw[1], raw[2]), Fourth(raw[2]))
    requires Decode(text[4..]) == Some(raw[3..])
    ensures Decode(text) == Some(raw)
  {
    DecodeFour(text, First(raw[0]), Second(raw[0], raw[1]), Third(raw[1], raw[2]), Fourth(raw[2]));
    GroupRoundTrip(raw[0], raw[1], raw[2]);
    assert raw == [raw[0], raw[1], raw[2]] + raw[3..];
  }

  predicate Letters(text: string) {
    forall k :: 0 <= k < |text| ==> InAlphabet(text[k]) || text[k] == '='
  }

  lemma GroupLetters(a: byte, b: byte, c: byte)
    ensures InAlphabet(CharOf(First(a))) && InAlphabet(CharOf(Second(a, b)))
    ensures InAlphabet(CharOf(Third(b, c))) && InAlphabet(CharOf(Fourth(c)))
  {
    CharRoundTrip(First(a));
    CharRoundTrip(Second(a, b));
    CharRoundTrip(Third(b, c));
    CharRoundTrip(Fourth(c));
  }

  function Group(a: byte, b: byte, c: byte): (four: string)
    ensures |four| == 4 && Letters(four)
  {
    GroupLetters(a, b, c);
    [CharOf(First(a)), CharOf(Second(a, b)), CharOf(Third(b, c)), CharOf(Fourth(c))]
  }

  /** Three bytes make four characters. */
  lemma {:induction false} EncodedLength(raw: seq<byte>)
    ensures |Encode(raw)| == (|raw| + 2) / 3 * 4
    ensures Letters(Encode(raw))
    decreases |raw|
  {
    if |raw| == 1 {
      GroupLetters(raw[0], 0, 0);
    } else if |raw| == 2 {
      GroupLetters(raw[0], raw[1], 0);
    } else if |raw| >= 3 {
      var four := Group(raw[0], raw[1], raw[2]);
      EncodedLength(raw[3..]);
      LettersConcat(four, Encode(raw[3..]));
      assert Encode(raw) == four + Encode(raw[3..]);
      assert (|raw| + 2) / 3 == (|raw[3..]| + 2) / 3 + 1;
    }
  }

  lemma LettersConcat(left: string, right: string)
    requires Letters(left) && Letters(right)
    ensures Letters(left + right)
  {
  }

  lemma {:induction false} RoundTrip(raw: seq<byte>)
    ensures Decode(Encode(raw)) == Some(raw)
    decreases |raw|
  {
    if |raw| == 1 {
      OneByte(raw[0], Encode(raw));
      assert raw == [raw[0]];
    } else if |raw| == 2 {
      TwoBytes(raw[0], raw[1], Encode(raw));
      assert raw == [raw[0], raw[1]];
    } else if |raw| >= 3 {
      RoundTrip(raw[3..]);
      EncodeSpells(raw);
      FullGroup(raw, Encode(raw));
    }
  }
}
