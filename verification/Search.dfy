/** The substring functions of Go's strings package (Index, Contains, Count and Replace), each by its first match
    from the left, with what the rewriters need to know of them: where the first match in a concatenation lies, how
    often a pattern occurs in one, and what a replacement leaves of the text around it. */
module Search {
  import opened Common

  predicate MatchAt(text: string, pattern: string, i: int) {
    0 <= i && i + |pattern| <= |text| && text[i..i + |pattern|] == pattern
  }

  /** strings.Contains, as a statement. */
  ghost predicate Occurs(text: string, pattern: string) {
    exists i :: MatchAt(text, pattern, i)
  }

  function IndexFrom(text: string, pattern: string, from: nat): (r: int)
    requires from <= |text|
    decreases |text| - from
  {
    if MatchAt(text, pattern, from) then from
    else if from == |text| then -1
    else IndexFrom(text, pattern, from + 1)
  }

  /** strings.Index: the first match, or -1. */
  function Index(text: string, pattern: string): int {
    IndexFrom(text, pattern, 0)
  }

  /** strings.Count: matches that do not overlap, from the left; here, from `k` on. */
  function CountFrom(text: string, pattern: string, k: nat): nat
    requires pattern != ""
    decreases |text| - k
  {
    if k + |pattern| > |text| then 0
    else if MatchAt(text, pattern, k) then 1 + CountFrom(text, pattern, k + |pattern|)
    else CountFrom(text, pattern, k + 1)
  }

  function Count(text: string, pattern: string): nat
    requires pattern != ""
  {
    CountFrom(text, pattern, 0)
  }

  lemma {:induction false} IndexFromFinds(text: string, pattern: string, from: nat)
    requires from <= |text|
    ensures var r := IndexFrom(text, pattern, from);
      && (r == -1 || from <= r)
      && (r != -1 ==> MatchAt(text, pattern, r))
      && (forall i :: from <= i && (r == -1 || i < r) ==> !MatchAt(text, pattern, i))
    decreases |text| - from
  {
    if !MatchAt(text, pattern, from) && from < |text| {
      IndexFromFinds(text, pattern, from + 1);
    }
  }

  lemma IndexIsFirst(text: string, pattern: string)
    ensures Index(text, pattern) >= 0 <==> Occurs(text, pattern)
    ensures Index(text, pattern) == -1 || MatchAt(text, pattern, Index(text, pattern))
    ensures Index(text, pattern) >= 0 ==> forall i :: MatchAt(text, pattern, i) ==> Index(text, pattern) <= i
  {
    IndexFromFinds(text, pattern, 0);
  }

  lemma {:induction false} CountFromPositive(text: string, pattern: string, k: nat)
    requires pattern != ""
    ensures CountFrom(text, pattern, k) > 0 <==> exists i :: i >= k && MatchAt(text, pattern, i)
    decreases |text| - k
  {
    if k + |pattern| <= |text| && !MatchAt(text, pattern, k) {
      CountFromPositive(text, pattern, k + 1);
    }
  }

  lemma CountPositive(text: string, pattern: string)
    requires pattern != ""
    ensures Count(text, pattern) > 0 <==> Occurs(text, pattern)
  {
    CountFromPositive(text, pattern, 0);
  }

  lemma MatchInTail(left: string, right: string, pattern: string, i: int)
    requires i >= |left|
    ensures MatchAt(left + right, pattern, i) <==> MatchAt(right, pattern, i - |left|)
  {
    var text := left + right;
    if i + |pattern| <= |text| {
      assert text[i..i + |pattern|] == right[i - |left|..i - |left| + |pattern|];
    }
  }

  lemma MatchInHead(left: string, right: string, pattern: string, i: int)
    requires i >= 0 && i + |pattern| <= |left|
    ensures MatchAt(left + right, pattern, i) <==> MatchAt(left, pattern, i)
  {
    assert (left + right)[i..i + |pattern|] == left[i..i + |pattern|];
  }

  /** A pattern without the separating character matches on one side of it or on the other. */
  lemma MatchAcross(left: string, separator: char, right: string, pattern: string, i: int)
    requires separator !in pattern && pattern != "" && MatchAt(left + [separator] + right, pattern, i)
    ensures i + |pattern| <= |left| || i > |left|
  {
    var text := left + [separator] + right;
    assert text[|left|] == separator;
  }

  lemma {:induction false} CountTail(head: string, tail: string, pattern: string, k: nat)
    requires pattern != ""
    ensures CountFrom(head + tail, pattern, |head| + k) == CountFrom(tail, pattern, k)
    decreases |tail| - k
  {
    if k + |pattern| <= |tail| {
      MatchInTail(head, tail, pattern, |head| + k);
      var next := if MatchAt(tail, pattern, k) then k + |pattern| else k + 1;
      assert |head| + next == if MatchAt(tail, pattern, k) then |head| + k + |pattern| else |head| + k + 1;
      CountTail(head, tail, pattern, next);
    }
  }

  lemma CountSuffix(text: string, pattern: string, i: nat)
    requires pattern != "" && i <= |text|
    ensures CountFrom(text, pattern, i) == Count(text[i..], pattern)
  {
    assert text == text[..i] + text[i..];
    CountTail(text[..i], text[i..], pattern, 0);
  }

  /** So it is counted separately on the two sides. */
  lemma {:induction false} CountFromAcross(left: string, separator: char, right: string, pattern: string, k: nat)
    requires separator !in pattern && pattern != "" && k <= |left| + 1
    ensures CountFrom(left + [separator] + right, pattern, k) == CountFrom(left, pattern, k) + Count(right, pattern)
    decreases |left| + 1 - k
  {
    var text := left + [separator] + right;
    assert text == left + ([separator] + right);
    if k == |left| + 1 {
      CountTail(left + [separator], right, pattern, 0);
    } else if k + |pattern| <= |left| {
      MatchInHead(left, [separator] + right, pattern, k);
      CountFromAcross(left, separator, right, pattern, if MatchAt(left, pattern, k) then k + |pattern| else k + 1);
    } else {
      if k + |pattern| <= |text| {
        assert !MatchAt(text, pattern, k) by {
          if MatchAt(text, pattern, k) { MatchAcross(left, separator, right, pattern, k); }
        }
        CountFromAcross(left, separator, right, pattern, k + 1);
      }
      assert CountFrom(left, pattern, k) == 0;
      assert k + |pattern| > |text| ==> |right| < |pattern|;
    }
  }

  lemma CountAcross(left: string, separator: char, right: string, pattern: string)
    requires separator !in pattern && pattern != ""
    ensures Count(left + [separator] + right, pattern) == Count(left, pattern) + Count(right, pattern)
  {
    CountFromAcross(left, separator, right, pattern, 0);
  }

  lemma {:induction false} CountFromFirst(text: string, pattern: string, k: nat, i: nat)
    requires pattern != "" && k <= i && MatchAt(text, pattern, i)
    requires forall j :: k <= j < i ==> !MatchAt(text, pattern, j)
    ensures CountFrom(text, pattern, k) == 1 + CountFrom(text, pattern, i + |pattern|)
    decreases i - k
  {
    if k < i {
      CountFromFirst(text, pattern, k + 1, i);
    }
  }

  /** A pattern with a single match. */
  lemma CountOnly(text: string, pattern: string, i: nat)
    requires pattern != "" && MatchAt(text, pattern, i) && forall j :: MatchAt(text, pattern, j) ==> j == i
    ensures Count(text, pattern) == 1
  {
    CountFromFirst(text, pattern, 0, i);
    CountFromPositive(text, pattern, i + |pattern|);
  }

  /** strings.ReplaceAll; here, from `k` on. */
  function ReplaceFrom(text: string, pattern: string, replacement: string, k: nat): string
    requires pattern != "" && k <= |text|
    decreases |text| - k
  {
    if k + |pattern| > |text| then text[k..]
    else if MatchAt(text, pattern, k) then replacement + ReplaceFrom(text, pattern, replacement, k + |pattern|)
    else [text[k]] + ReplaceFrom(text, pattern, replacement, k + 1)
  }

  function ReplaceAll(text: string, pattern: string, replacement: string): string
    requires pattern != ""
  {
    ReplaceFrom(text, pattern, replacement, 0)
  }

  lemma MatchChar(text: string, pattern: string, i: int, j: nat)
    requires MatchAt(text, pattern, i) && j < |pattern|
    ensures text[i + j] == pattern[j]
  {
    assert text[i..i + |pattern|][j] == text[i + j];
  }

  lemma Differs(text: string, pattern: string, i: nat, j: nat)
    requires j < |pattern| && (i + j < |text| ==> text[i + j] != pattern[j])
    ensures !MatchAt(text, pattern, i)
  {
    if i + |pattern| <= |text| {
      assert text[i..i + |pattern|][j] == text[i + j];
    }
  }

  /** How often a character occurs. */
  function CharCount(text: string, c: char): nat {
    if text == "" then 0 else (if text[0] == c then 1 else 0) + CharCount(text[1..], c)
  }

  lemma {:induction false} CharCountConcat(left: string, right: string, c: char)
    ensures CharCount(left + right, c) == CharCount(left, c) + CharCount(right, c)
  {
    if left == "" {
      assert left + right == right;
    } else {
      assert (left + right)[1..] == left[1..] + right;
      CharCountConcat(left[1..], right, c);
    }
  }

  lemma {:induction false} CharCountNone(text: string, c: char)
    requires c !in text
    ensures CharCount(text, c) == 0
  {
    if text != "" {
      CharCountNone(text[1..], c);
    }
  }

  lemma {:induction false} CharCountSome(text: string, c: char, i: nat)
    requires i < |text| && text[i] == c
    ensures CharCount(text, c) > 0
  {
    if i > 0 {
      CharCountSome(text[1..], c, i - 1);
    }
  }

  /** A character that occurs once occurs at one place. */
  lemma {:induction false} CharCountOnce(text: string, c: char, i: nat, j: nat)
    requires i < |text| && j < |text| && text[i] == c == text[j] && CharCount(text, c) == 1
    ensures i == j
  {
    if i > 0 && text[0] == c {
      CharCountSome(text[1..], c, i - 1);
    } else if j > 0 && text[0] == c {
      CharCountSome(text[1..], c, j - 1);
    } else if i > 0 && j > 0 {
      CharCountOnce(text[1..], c, i - 1, j - 1);
    }
  }

  lemma CharCountOneAt(text: string, c: char, i: nat)
    requires i < |text| && text[i] == c && forall k :: 0 <= k < |text| && k != i ==> text[k] != c
    ensures CharCount(text, c) == 1
  {
    assert text == text[..i] + ([c] + text[i + 1..]);
    CharCountConcat(text[..i], [c] + text[i + 1..], c);
    CharCountNone(text[..i], c);
    CharCountNone(text[i + 1..], c);
    assert ([c] + text[i + 1..])[1..] == text[i + 1..];
  }

  /** The count of a character that can only stand at one place. */
  lemma CharCountAt(text: string, c: char, i: int)
    requires forall k :: 0 <= k < |text| ==> (text[k] == c <==> k == i)
    ensures CharCount(text, c) == if 0 <= i < |text| then 1 else 0
  {
    if 0 <= i < |text| {
      CharCountOneAt(text, c, i);
    } else {
      CharCountNone(text, c);
    }
  }

  lemma CharCountTwice(text: string, c: char, i: nat, j: nat)
    requires i < j < |text| && forall k :: 0 <= k < |text| ==> (text[k] == c <==> k == i || k == j)
    ensures CharCount(text, c) == 2
  {
    assert text == text[..j] + text[j..];
    CharCountConcat(text[..j], text[j..], c);
    CharCountAt(text[..j], c, i);
    CharCountAt(text[j..], c, 0);
  }

  lemma CharCountSplit(text: string, k: nat, n: nat, c: char)
    requires k + n <= |text|
    ensures CharCount(text[k..], c) == CharCount(text[k..k + n], c) + CharCount(text[k + n..], c)
  {
    assert text[k..] == text[k..k + n] + text[k + n..];
    CharCountConcat(text[k..k + n], text[k + n..], c);
  }

  ghost predicate Counted(text: string, pattern: string, replacement: string, k: nat, c: char, more: nat)
    requires pattern != "" && k <= |text|
  {
    CharCount(ReplaceFrom(text, pattern, replacement, k), c)
    == CharCount(text[k..], c) + (if more == 0 then 0 else CountFrom(text, pattern, k))
  }

  lemma CountedMatch(text: string, pattern: string, replacement: string, k: nat, c: char, more: nat)
    requires pattern != "" && more <= 1 && CharCount(replacement, c) == CharCount(pattern, c) + more
    requires MatchAt(text, pattern, k) && Counted(text, pattern, replacement, k + |pattern|, c, more)
    ensures Counted(text, pattern, replacement, k, c, more)
  {
    CharCountSplit(text, k, |pattern|, c);
    Grown(replacement, ReplaceFrom(text, pattern, replacement, k + |pattern|), c,
      ReplaceFrom(text, pattern, replacement, k));
  }

  lemma CountedSkip(text: string, pattern: string, replacement: string, k: nat, c: char, more: nat)
    requires pattern != "" && k + |pattern| <= |text|
    requires !MatchAt(text, pattern, k) && Counted(text, pattern, replacement, k + 1, c, more)
    ensures Counted(text, pattern, replacement, k, c, more)
  {
    CharCountSplit(text, k, 1, c);
    assert text[k..k + 1] == [text[k]];
    Grown(text[k..k + 1], ReplaceFrom(text, pattern, replacement, k + 1), c,
      ReplaceFrom(text, pattern, replacement, k));
  }

  /** Each replacement adds what the replacement has more of the character than the pattern. */
  lemma {:induction false} ReplaceCounts(text: string, pattern: string, replacement: string, k: nat, c: char, more: nat)
    requires pattern != "" && k <= |text| && more <= 1
    requires CharCount(replacement, c) == CharCount(pattern, c) + more
    ensures Counted(text, pattern, replacement, k, c, more)
    decreases |text| - k
  {
    if k + |pattern| > |text| {
    } else if MatchAt(text, pattern, k) {
      ReplaceCounts(text, pattern, replacement, k + |pattern|, c, more);
      CountedMatch(text, pattern, replacement, k, c, more);
    } else {
      ReplaceCounts(text, pattern, replacement, k + 1, c, more);
      CountedSkip(text, pattern, replacement, k, c, more);
    }
  }

  lemma Grown(head: string, rest: string, c: char, text: string)
    requires text == head + rest
    ensures CharCount(text, c) == CharCount(head, c) + CharCount(rest, c)
  {
    CharCountConcat(head, rest, c);
  }

  lemma {:induction false} CountWithin(text: string, pattern: string, k: nat, c: char)
    requires pattern != "" && k <= |text| && CharCount(pattern, c) >= 1
    ensures CountFrom(text, pattern, k) <= CharCount(text[k..], c)
    decreases |text| - k
  {
    if k + |pattern| <= |text| {
      if MatchAt(text, pattern, k) {
        assert text[k..] == pattern + text[k + |pattern|..];
        CharCountConcat(pattern, text[k + |pattern|..], c);
        CountWithin(text, pattern, k + |pattern|, c);
      } else {
        CountWithin(text, pattern, k + 1, c);
      }
    }
  }

  lemma {:induction false} ReplaceNone(text: string, pattern: string, replacement: string, k: nat)
    requires pattern != "" && k <= |text| && CountFrom(text, pattern, k) == 0
    ensures ReplaceFrom(text, pattern, replacement, k) == text[k..]
    decreases |text| - k
  {
    if k + |pattern| <= |text| {
      ReplaceNone(text, pattern, replacement, k + 1);
      assert text[k..] == [text[k]] + text[k + 1..];
    }
  }

  lemma {:induction false} FirstMatch(text: string, pattern: string, k: nat) returns (i: nat)
    requires pattern != "" && k <= |text| && CountFrom(text, pattern, k) >= 1
    ensures k <= i && MatchAt(text, pattern, i)
    ensures forall j :: k <= j < i ==> !MatchAt(text, pattern, j)
    decreases |text| - k
  {
    if MatchAt(text, pattern, k) {
      i := k;
    } else {
      i := FirstMatch(text, pattern, k + 1);
    }
  }

  lemma {:induction false} ReplaceUpTo(text: string, pattern: string, replacement: string, k: nat, i: nat)
    requires pattern != "" && k <= i && MatchAt(text, pattern, i)
    requires forall j :: k <= j < i ==> !MatchAt(text, pattern, j)
    ensures CountFrom(text, pattern, k) == 1 + CountFrom(text, pattern, i + |pattern|)
    ensures ReplaceFrom(text, pattern, replacement, k)
         == text[k..i] + (replacement + ReplaceFrom(text, pattern, replacement, i + |pattern|))
    decreases i - k
  {
    if k < i {
      ReplaceUpTo(text, pattern, replacement, k + 1, i);
      Prepended(text, k, i, replacement + ReplaceFrom(text, pattern, replacement, i + |pattern|));
    }
  }

  lemma Prepended(text: string, k: nat, i: nat, rest: string)
    requires k < i <= |text|
    ensures [text[k]] + (text[k + 1..i] + rest) == text[k..i] + rest
  {
    assert text[k..i] == [text[k]] + text[k + 1..i];
  }

  /** A text with one match: the parts around it, and the text with the match replaced. */
  lemma ReplaceOnly(text: string, pattern: string, replacement: string) returns (left: string, right: string)
    requires pattern != "" && Count(text, pattern) == 1
    ensures text == left + pattern + right
    ensures ReplaceAll(text, pattern, replacement) == left + replacement + right
  {
    var i := FirstMatch(text, pattern, 0);
    ReplaceUpTo(text, pattern, replacement, 0, i);
    ReplaceNone(text, pattern, replacement, i + |pattern|);
    left, right := text[..i], text[i + |pattern|..];
    assert text[0..i] == left;
    Associate(left, replacement, right);
    AroundMatch(text, pattern, i);
  }

  lemma AroundMatch(text: string, pattern: string, i: nat)
    requires MatchAt(text, pattern, i)
    ensures text == text[..i] + pattern + text[i + |pattern|..]
  {
  }

  lemma ReplaceAllCounts(text: string, pattern: string, replacement: string, c: char, more: nat)
    requires pattern != "" && more <= 1 && CharCount(replacement, c) == CharCount(pattern, c) + more
    ensures CharCount(ReplaceAll(text, pattern, replacement), c)
         == CharCount(text, c) + (if more == 0 then 0 else Count(text, pattern))
  {
    ReplaceCounts(text, pattern, replacement, 0, c, more);
    assert text[0..] == text;
  }

  lemma ReplaceAllNone(text: string, pattern: string, replacement: string)
    requires pattern != "" && Count(text, pattern) == 0
    ensures ReplaceAll(text, pattern, replacement) == text
  {
    ReplaceNone(text, pattern, replacement, 0);
    assert text[0..] == text;
  }

  lemma CountAtMost(text: string, pattern: string, c: char)
    requires pattern != "" && CharCount(pattern, c) >= 1
    ensures Count(text, pattern) <= CharCount(text, c)
  {
    CountWithin(text, pattern, 0, c);
    assert text[0..] == text;
  }
}
