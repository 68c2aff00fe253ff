/** Go's order on strings, and sort.Strings on the keys of a map: insertion keeps a list strictly sorted, and a set of
    strings has one strictly sorted list, so the sorted result is the same whatever order the map is read in. */
module Ordering {

  /** Lexicographic order; on UTF-8 text the order of the bytes is the order of the characters. */
  predicate Less(a: string, b: string) {
    b != "" && (a == "" || a[0] < b[0] || (a[0] == b[0] && Less(a[1..], b[1..])))
  }

  lemma {:induction false} LessTransitive(a: string, b: string, c: string)
    requires Less(a, b) && Less(b, c)
    ensures Less(a, c)
  {
    if a != "" && a[0] == b[0] && b[0] == c[0] {
      LessTransitive(a[1..], b[1..], c[1..]);
    }
  }

  lemma {:induction false} LessTotal(a: string, b: string)
    ensures Less(a, b) || a == b || Less(b, a)
    ensures !(Less(a, b) && Less(b, a)) && (a == b ==> !Less(a, b))
  {
    if a != "" && b != "" && a[0] == b[0] {
      LessTotal(a[1..], b[1..]);
      assert a == [a[0]] + a[1..] && b == [b[0]] + b[1..];
    }
  }

  ghost predicate StrictlySorted(s: seq<string>) {
    forall i, j :: 0 <= i < j < |s| ==> Less(s[i], s[j])
  }

  /** A sorted list without repeats is determined by its elements. */
  lemma {:induction false} SortedUnique(s: seq<string>, t: seq<string>)
    requires StrictlySorted(s) && StrictlySorted(t) && forall x :: x in s <==> x in t
    ensures s == t
  {
    assert t != [] ==> t[0] in t;
    if s != [] {
      assert s[0] in t;
      assert t[0] in s;
      var i :| 0 <= i < |t| && t[i] == s[0];
      var j :| 0 <= j < |s| && s[j] == t[0];
      LessTotal(s[0], t[0]);
      assert s[0] == t[0];
      forall x ensures x in s[1..] <==> x in t[1..] {
        LessTotal(x, s[0]);
        HeadOnce(s, x);
        HeadOnce(t, x);
      }
      SortedUnique(s[1..], t[1..]);
      assert s == [s[0]] + s[1..] && t == [t[0]] + t[1..];
    }
  }

  lemma HeadOnce(s: seq<string>, x: string)
    requires s != [] && StrictlySorted(s)
    ensures x in s[1..] <==> x in s && x != s[0]
  {
    if x in s[1..] {
      var k :| 0 <= k < |s[1..]| && s[1..][k] == x;
      assert Less(s[0], s[k + 1]);
      LessTotal(s[0], x);
    }
  }

  /** The sorted list with one more element. */
  function Insert(s: seq<string>, x: string): (r: seq<string>)
    requires StrictlySorted(s) && x !in s
    ensures StrictlySorted(r) && forall y :: y in r <==> y in s || y == x
  {
    if s == [] then [x]
    else if Less(x, s[0]) then
      assert forall k :: 0 < k < |s| ==> Less(s[0], s[k]);
      InsertFirst(s, x);
      [x] + s
    else
      InsertLater(s, x);
      [s[0]] + Insert(s[1..], x)
  }

  lemma InsertFirst(s: seq<string>, x: string)
    requires s != [] && StrictlySorted(s) && Less(x, s[0])
    ensures StrictlySorted([x] + s)
  {
    forall k | 0 < k < |s| ensures Less(x, s[k]) {
      LessTransitive(x, s[0], s[k]);
    }
  }

  lemma InsertLater(s: seq<string>, x: string)
    requires s != [] && StrictlySorted(s) && x !in s && !Less(x, s[0])
    ensures Less(s[0], x) && StrictlySorted(s[1..]) && x !in s[1..]
    ensures forall y :: y in s[1..] ==> Less(s[0], y)
  {
    LessTotal(x, s[0]);
    forall y | y in s[1..] ensures Less(s[0], y) {
      var k :| 0 <= k < |s[1..]| && s[1..][k] == y;
      assert Less(s[0], s[k + 1]);
    }
  }

  /** The elements of a set in order. */
  method Sorted(elements: set<string>) returns (sorted: seq<string>)
    ensures StrictlySorted(sorted) && forall x :: x in sorted <==> x in elements
  {
    sorted := [];
    var rest := elements;
    while rest != {}
      invariant rest <= elements && StrictlySorted(sorted)
      invariant forall x :: x in sorted <==> x in elements && x !in rest
      decreases rest
    {
      var x :| x in rest;
      sorted := Insert(sorted, x);
      rest := rest - {x};
    }
  }
}
