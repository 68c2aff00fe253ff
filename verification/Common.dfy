/** Small result types, and what the other modules share about sequences and text: mapping, permutations as equal
    multisets, lists without repeats; decimal numbers; and joining with a separator, which loses nothing when no part
    contains the separator. */
module Common {

  datatype Option<+T> = None | Some(value: T)

  datatype Result<+T, +E> = Ok(value: T) | Err(error: E)

  type byte = b: int | 0 <= b < 256

  function Map<A, B>(f: A -> B, s: seq<A>): (r: seq<B>)
    ensures |r| == |s| && forall k :: 0 <= k < |r| ==> r[k] == f(s[k])
  {
    seq(|s|, k requires 0 <= k < |s| => f(s[k]))
  }

  function Without<T>(s: seq<T>, j: nat): seq<T>
    requires j < |s|
  {
    s[..j] + s[j + 1..]
  }

  lemma WithoutOne<T>(s: seq<T>, j: nat)
    requires j < |s|
    ensures multiset(s) == multiset(Without(s, j)) + multiset{s[j]}
  {
    assert s == s[..j] + ([s[j]] + s[j + 1..]);
  }

  lemma MapWithout<A, B>(f: A -> B, s: seq<A>, j: nat)
    requires j < |s|
    ensures multiset(Map(f, s)) == multiset(Map(f, Without(s, j))) + multiset{f(s[j])}
  {
    WithoutOne(Map(f, s), j);
    assert Without(Map(f, s), j) == Map(f, Without(s, j));
  }

  lemma SameWithout<T>(a: seq<T>, b: seq<T>, j: nat)
    requires a != [] && j < |b| && b[j] == a[0] && multiset(a) == multiset(b)
    ensures multiset(Without(a, 0)) == multiset(Without(b, j))
  {
    WithoutOne(a, 0);
    WithoutOne(b, j);
    assert multiset(a) - multiset{a[0]} == multiset(Without(a, 0));
    assert multiset(b) - multiset{b[j]} == multiset(Without(b, j));
  }

  /** Mapping a permutation gives a permutation. */
  lemma {:induction false} MapPermutes<A, B>(f: A -> B, a: seq<A>, b: seq<A>)
    requires multiset(a) == multiset(b)
    ensures multiset(Map(f, a)) == multiset(Map(f, b))
    decreases |a|
  {
    if a == [] {
      assert |b| == |multiset(b)| == 0;
    } else {
      assert a[0] in multiset(b);
      var j :| 0 <= j < |b| && b[j] == a[0];
      SameWithout(a, b, j);
      MapPermutes(f, Without(a, 0), Without(b, j));
      MapWithout(f, a, 0);
      MapWithout(f, b, j);
    }
  }

  ghost predicate NoRepeat<T>(s: seq<T>) {
    forall i, j :: 0 <= i < j < |s| ==> s[i] != s[j]
  }

  lemma {:induction false} Multiplicity<T>(s: seq<T>, x: T)
    ensures NoRepeat(s) ==> multiset(s)[x] == if x in s then 1 else 0
    ensures multiset(s)[x] <= 1 ==> forall i, j :: 0 <= i < j < |s| && s[i] == x ==> s[j] != x
  {
    if s != [] {
      var n := |s| - 1;
      assert s == s[..n] + [s[n]];
      Multiplicity(s[..n], x);
      assert forall i :: 0 <= i < n ==> s[i] == s[..n][i];
    }
  }

  lemma NoRepeatOneMore<T>(s: seq<T>, x: T)
    ensures NoRepeat(s + [x]) <==> NoRepeat(s) && x !in s
  {
    var all := s + [x];
    if NoRepeat(all) {
      forall i, j | 0 <= i < j < |s| ensures s[i] != s[j] {
        assert all[i] != all[j];
      }
      forall i | 0 <= i < |s| ensures s[i] != x {
        assert all[i] != all[|s|];
      }
    }
  }

  lemma Associate<T>(a: seq<T>, b: seq<T>, c: seq<T>)
    ensures a + b + c == a + (b + c)
  {
  }

  /** A repeat shows at the element that repeats an earlier one. */
  lemma NoRepeatStep<T>(s: seq<T>, i: nat)
    requires i < |s| && NoRepeat(s[..i])
    ensures NoRepeat(s[..i + 1]) <==> s[i] !in s[..i]
    ensures s[i] in s[..i] ==> !NoRepeat(s)
  {
    assert s[..i + 1] == s[..i] + [s[i]];
    NoRepeatOneMore(s[..i], s[i]);
    if s[i] in s[..i] {
      var k :| 0 <= k < i && s[k] == s[i];
    }
  }

  /** Whether a list repeats an element does not depend on its order. */
  lemma NoRepeatPermutes<T>(a: seq<T>, b: seq<T>)
    requires multiset(a) == multiset(b) && NoRepeat(a)
    ensures NoRepeat(b)
  {
    forall i, j | 0 <= i < j < |b| ensures b[i] != b[j] {
      Multiplicity(a, b[i]);
      Multiplicity(b, b[i]);
    }
  }

  /** The decimal digits of `n`, as fmt's %d prints them. */
  function Decimal(n: nat): (r: string)
    ensures r != [] && forall k :: 0 <= k < |r| ==> '0' <= r[k] <= '9'
  {
    (if n < 10 then "" else Decimal(n / 10)) + [(n % 10 + 48) as char]
  }

  lemma {:induction false} DecimalInjective(m: nat, n: nat)
    requires Decimal(m) == Decimal(n)
    ensures m == n
  {
    var r := Decimal(m);
    assert r[|r| - 1] as int == m % 10 + 48 == n % 10 + 48;
    assert (if m < 10 then "" else Decimal(m / 10)) == r[..|r| - 1] == (if n < 10 then "" else Decimal(n / 10));
    if m >= 10 && n >= 10 {
      DecimalInjective(m / 10, n / 10);
    }
  }

  function Pow10(k: nat): nat {
    if k == 0 then 1 else 10 * Pow10(k - 1)
  }

  lemma {:induction false} DecimalLength(n: nat, k: nat)
    requires n < Pow10(k) && k > 0
    ensures |Decimal(n)| <= k
  {
    if n >= 10 {
      DecimalLength(n / 10, k - 1);
    }
  }

  /** strings.Join. */
  function Join<T>(parts: seq<seq<T>>, separator: seq<T>): seq<T> {
    if |parts| == 0 then []
    else if |parts| == 1 then parts[0]
    else parts[0] + separator + Join(parts[1..], separator)
  }

  /** Text up to the first separator is determined by the whole. */
  lemma FirstPart(a: string, restA: string, b: string, restB: string, separator: char)
    requires separator !in a && separator !in b && a + [separator] + restA == b + [separator] + restB
    ensures a == b && restA == restB
  {
    var text := a + [separator] + restA;
    assert text[|a|] == separator && text[|b|] == separator;
    assert forall k :: 0 <= k < |b| ==> text[k] == b[k] != separator;
    assert forall k :: 0 <= k < |a| ==> text[k] == a[k] != separator;
    assert a == text[..|a|] == text[..|b|] == b;
    assert restA == text[|a| + 1..] == restB;
  }

  ghost predicate WithoutSeparator(parts: seq<string>, separator: char) {
    parts != [] && forall k :: 0 <= k < |parts| ==> separator !in parts[k]
  }

  lemma LongHasSeparator(parts: seq<string>, separator: char)
    ensures |parts| > 1 ==> separator in Join(parts, [separator])
  {
    assert |parts| > 1 ==> Join(parts, [separator])[|parts[0]|] == separator;
  }

  /** Joined texts without the separator can be told apart. */
  lemma {:induction false} JoinInjective(a: seq<string>, b: seq<string>, separator: char)
    requires WithoutSeparator(a, separator) && WithoutSeparator(b, separator)
    requires Join(a, [separator]) == Join(b, [separator])
    ensures a == b
  {
    LongHasSeparator(a, separator);
    LongHasSeparator(b, separator);
    if |a| > 1 && |b| > 1 {
      FirstPart(a[0], Join(a[1..], [separator]), b[0], Join(b[1..], [separator]), separator);
      JoinInjective(a[1..], b[1..], separator);
      assert a == [a[0]] + a[1..] && b == [b[0]] + b[1..];
    }
  }
}
