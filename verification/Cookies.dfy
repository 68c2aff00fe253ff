/** The signed browser session that is copied into the Sandbox (tradingview_auth_sync.go). */
module Cookies {
  import opened Common
  import opened CaseFold
  import Ordering
  import TerminalText

  datatype Cookie = Cookie(
    host: string, topFrame: string, name: string, value: string, path: string,
    creation: int, expires: int, lastAccess: int, lastUpdate: int, hasExpires: bool, persistent: bool,
    priority: int, sameSite: int, scheme: int, port: int, sourceType: int, crossSite: bool)

  /** The decoded file; a list may be missing. */
  datatype Authentication = Authentication(schema: int, cookies: Option<seq<Cookie>>, users: Option<seq<string>>)

  const SCHEMA := 3
  const MAXIMUM_COOKIES := 4
  const MAXIMUM_USERS := 8
  const MAXIMUM_VALUE := 16384
  const SESSION := "sessionid"
  const SIGNATURE := "sessionid_sign"

  // ---------------------------------------------------------------- one cookie

  function ByteLength(text: string): nat {
    |TerminalText.Encode(text)|
  }

  predicate SingleLine(text: string) {
    '\0' !in text && '\r' !in text && '\n' !in text
  }

  predicate HasSuffix(text: string, suffix: string) {
    |suffix| <= |text| && text[|text| - |suffix|..] == suffix
  }

  predicate HostAllowed(host: string) {
    && host != "" && ByteLength(host) <= 512 && TerminalText.TrimRight(TerminalText.TrimLeft(host)) == host &&
         SingleLine(host)
    && (Lower(host) == "tradingview.com" || Lower(host) == ".tradingview.com" ||
         HasSuffix(Lower(host), ".tradingview.com"))
  }

  predicate ValueChar(c: char) {
    var v := c as int;
    v == 0x21 || 0x23 <= v <= 0x2b || 0x2d <= v <= 0x3a || 0x3c <= v <= 0x5b || 0x5d <= v <= 0x7e
  }

  predicate ValueAllowed(value: string) {
    value != "" && ByteLength(value) <= MAXIMUM_VALUE && forall k :: 0 <= k < |value| ==> ValueChar(value[k])
  }

  predicate MetadataAllowed(c: Cookie) {
    && c.creation >= 0 && c.expires >= 0 && c.lastAccess >= 0 && c.lastUpdate >= 0
    && 0 <= c.priority <= 2 && -1 <= c.sameSite <= 2 && 0 <= c.scheme <= 2 && 0 <= c.sourceType <= 3 &&
         -1 <= c.port <= 65535
    && c.hasExpires == c.persistent && (c.hasExpires ==> c.expires != 0)
  }

  /** validateTradingViewCookie. */
  predicate CookieAllowed(c: Cookie) {
    && (c.name == SESSION || c.name == SIGNATURE) && HostAllowed(c.host)
    && c.topFrame == "" && c.crossSite
    && c.path != "" && ByteLength(c.path) <= 1024 && c.path[0] == '/' && SingleLine(c.path)
    && ValueAllowed(c.value) && MetadataAllowed(c)
  }

  predicate UserAllowed(user: string) {
    1 <= |user| <= 19 && user[0] != '0' && forall k :: 0 <= k < |user| ==> '0' <= user[k] <= '9'
  }

  // ---------------------------------------------------------------- what that comes to

  lemma SuffixIff(text: string, suffix: string)
    ensures HasSuffix(text, suffix) <==> exists prefix :: text == prefix + suffix
  {
    if HasSuffix(text, suffix) {
      assert text == text[..|text| - |suffix|] + suffix;
    }
  }

  /** One short line without space around it: the site itself, or anything below it. */
  lemma HostAllowedIff(host: string)
    ensures HostAllowed(host) <==>
      && host != "" && ByteLength(host) <= 512
      && !TerminalText.IsSpace(host[0]) && !TerminalText.IsSpace(host[|host| - 1])
      && (forall c :: c in host ==> c != '\0' && c != '\r' && c != '\n')
      && (Lower(host) == "tradingview.com" || exists prefix :: Lower(host) == prefix + ".tradingview.com")
  {
    TerminalText.TrimmedIff(host);
    SuffixIff(Lower(host), ".tradingview.com");
    if Lower(host) == ".tradingview.com" {
      assert Lower(host) == "" + ".tradingview.com";
    }
  }

  /** Printable ASCII but quote, comma, semicolon and backslash. */
  lemma ValueAllowedIff(value: string)
    ensures ValueAllowed(value) <==>
      && value != "" && ByteLength(value) <= 16384
      && forall c :: c in value ==> '!' <= c <= '~' && c != '\"' && c != ',' && c != ';' && c != '\\'
  {
    assert forall k :: 0 <= k < |value| ==> value[k] in value;
  }

  /** A cookie of the session, or of its signature, of an allowed host. */
  lemma CookieAllowedIff(c: Cookie)
    ensures CookieAllowed(c) <==>
      && c.name in {"sessionid", "sessionid_sign"} && HostAllowed(c.host) && ValueAllowed(c.value)
      && c.topFrame == "" && c.crossSite
      && c.path != "" && c.path[0] == '/' && ByteLength(c.path) <= 1024
      && (forall x :: x in c.path ==> x != '\0' && x != '\r' && x != '\n')
      && 0 <= c.creation && 0 <= c.expires && 0 <= c.lastAccess && 0 <= c.lastUpdate
      && c.priority in {0, 1, 2} && c.scheme in {0, 1, 2} && c.sameSite in {-1, 0, 1, 2} && c.sourceType in {0, 1, 2, 3}
      && -1 <= c.port < 65536
      && (if c.persistent then c.hasExpires && c.expires != 0 else !c.hasExpires)
  {
  }

  /** The decimal form of a positive number. */
  ghost predicate IsNumber(text: string) {
    exists n: nat :: n > 0 && Decimal(n) == text
  }

  lemma OneDigit(c: char)
    requires '1' <= c <= '9'
    ensures IsNumber([c])
  {
    assert Decimal(c as int - 48) == [c];
  }

  lemma OneMoreDigit(text: string, c: char)
    requires IsNumber(text) && '0' <= c <= '9'
    ensures IsNumber(text + [c])
  {
    var n: nat :| n > 0 && Decimal(n) == text;
    var more := 10 * n + (c as int - 48);
    assert more / 10 == n && more % 10 == c as int - 48;
    assert Decimal(more) == text + [c];
  }

  /** Digits without a leading zero are the decimal form of a number. */
  lemma {:induction false} DigitsAreNumber(text: string)
    requires text != "" && text[0] != '0' && forall k :: 0 <= k < |text| ==> '0' <= text[k] <= '9'
    ensures IsNumber(text)
    decreases |text|
  {
    var init, last := text[..|text| - 1], text[|text| - 1];
    assert text == init + [last];
    if |text| == 1 {
      assert text == [last];
      OneDigit(last);
    } else {
      DigitsAreNumber(init);
      OneMoreDigit(init, last);
    }
  }

  lemma {:induction false} DecimalStart(n: nat)
    requires n > 0
    ensures Decimal(n)[0] != '0'
  {
    if n >= 10 {
      DecimalStart(n / 10);
    }
  }

  /** A user is a positive number of at most 19 digits, as it is printed. */
  lemma UserAllowedIff(user: string)
    ensures UserAllowed(user) <==> |user| <= 19 && IsNumber(user)
  {
    if UserAllowed(user) {
      DigitsAreNumber(user);
    }
    if IsNumber(user) {
      var n: nat :| n > 0 && Decimal(n) == user;
      DecimalStart(n);
    }
  }

  // ---------------------------------------------------------------- keys

  /** fmt's %d. */
  function Number(n: int): string {
    if n < 0 then "-" + Decimal(-n) else Decimal(n)
  }

  function Truth(b: bool): string {
    if b then "true" else "false"
  }

  function SourceParts(c: Cookie): seq<string> {
    [c.path, Number(c.scheme), Number(c.port), Truth(c.crossSite)]
  }

  /** The key of a cookie: its parts, separated by NUL. */
  function Identity(c: Cookie): string {
    Join([Lower(c.host), c.topFrame, c.name] + SourceParts(c), "\0")
  }

  /** The key of the session a cookie belongs to. */
  function PairIdentity(c: Cookie): string {
    Join([Lower(c.host), c.topFrame] + SourceParts(c), "\0")
  }

  lemma NumberPlain(n: int)
    ensures '\0' !in Number(n) && Number(n) != ""
  {
  }

  lemma NumberSign(n: int)
    ensures Number(n)[0] == '-' <==> n < 0
  {
    assert n >= 0 ==> Decimal(n)[0] != '-';
  }

  lemma NumberInjective(m: int, n: int)
    requires Number(m) == Number(n)
    ensures m == n
  {
    NumberSign(m);
    NumberSign(n);
    if m < 0 {
      assert Decimal(-m) == Number(m)[1..] == Number(n)[1..] == Decimal(-n);
      DecimalInjective(-m, -n);
    } else {
      DecimalInjective(m, n);
    }
  }

  lemma FoldedPlain(host: string)
    requires '\0' !in host
    ensures '\0' !in Lower(host)
  {
    assert forall c: char :: LowerChar(c) == '\0' ==> c == '\0';
  }

  ghost predicate SameSource(c: Cookie, d: Cookie) {
    Lower(c.host) == Lower(d.host) && c.path == d.path && c.scheme == d.scheme && c.port == d.port
  }

  lemma SourcePlain(c: Cookie)
    requires '\0' !in c.path
    ensures WithoutSeparator(SourceParts(c), '\0')
  {
    NumberPlain(c.scheme);
    NumberPlain(c.port);
    assert '\0' !in Truth(c.crossSite);
  }

  lemma PlainConcat(left: seq<string>, right: seq<string>)
    requires WithoutSeparator(left, '\0') && WithoutSeparator(right, '\0')
    ensures WithoutSeparator(left + right, '\0')
  {
  }

  lemma HeadPlain(c: Cookie)
    requires CookieAllowed(c)
    ensures WithoutSeparator([Lower(c.host), c.topFrame, c.name], '\0')
    ensures WithoutSeparator([Lower(c.host), c.topFrame], '\0') && '\0' !in c.path
  {
    FoldedPlain(c.host);
    NamePlain(c.name);
  }

  lemma NamePlain(name: string)
    requires name == SESSION || name == SIGNATURE
    ensures '\0' !in name
  {
  }

  lemma PlainParts(c: Cookie)
    requires CookieAllowed(c)
    ensures WithoutSeparator([Lower(c.host), c.topFrame, c.name] + SourceParts(c), '\0')
    ensures WithoutSeparator([Lower(c.host), c.topFrame] + SourceParts(c), '\0')
  {
    HeadPlain(c);
    SourcePlain(c);
    PlainConcat([Lower(c.host), c.topFrame, c.name], SourceParts(c));
    PlainConcat([Lower(c.host), c.topFrame], SourceParts(c));
  }

  lemma SourcePartsInjective(c: Cookie, d: Cookie)
    requires SourceParts(c) == SourceParts(d)
    ensures c.path == d.path && c.scheme == d.scheme && c.port == d.port
  {
    assert SourceParts(c)[0] == SourceParts(d)[0] && SourceParts(c)[1] == SourceParts(d)[1] &&
      SourceParts(c)[2] == SourceParts(d)[2];
    NumberInjective(c.scheme, d.scheme);
    NumberInjective(c.port, d.port);
  }

  /** The keys of allowed cookies are equal exactly when their sources, up to the case of the host, and their names
      are. */
  lemma IdentityIff(c: Cookie, d: Cookie)
    requires CookieAllowed(c) && CookieAllowed(d)
    ensures Identity(c) == Identity(d) <==> SameSource(c, d) && c.name == d.name
  {
    PlainParts(c);
    PlainParts(d);
    var a := [Lower(c.host), c.topFrame, c.name] + SourceParts(c);
    var b := [Lower(d.host), d.topFrame, d.name] + SourceParts(d);
    if Identity(c) == Identity(d) {
      JoinInjective(a, b, '\0');
      assert a[0] == b[0] && a[2] == b[2] && a[3..] == SourceParts(c) && b[3..] == SourceParts(d);
      SourcePartsInjective(c, d);
    }
  }

  lemma PairIdentityIff(c: Cookie, d: Cookie)
    requires CookieAllowed(c) && CookieAllowed(d)
    ensures PairIdentity(c) == PairIdentity(d) <==> SameSource(c, d)
  {
    PlainParts(c);
    PlainParts(d);
    var a, b := [Lower(c.host), c.topFrame] + SourceParts(c), [Lower(d.host), d.topFrame] + SourceParts(d);
    if PairIdentity(c) == PairIdentity(d) {
      JoinInjective(a, b, '\0');
      assert a[0] == b[0] && a[2..] == SourceParts(c) && b[2..] == SourceParts(d);
      SourcePartsInjective(c, d);
    }
  }

  // ---------------------------------------------------------------- the whole file

  ghost predicate UsersAllowed(users: seq<string>) {
    Ordering.StrictlySorted(users) && forall k :: 0 <= k < |users| ==> UserAllowed(users[k])
  }

  ghost predicate CookiesDistinct(cookies: seq<Cookie>) {
    NoRepeat(Map(Identity, cookies))
  }

  /** A cookie of the session with this key: its session cookie or its signature. */
  ghost predicate Has(cookies: seq<Cookie>, pair: string, session: bool) {
    exists i :: 0 <= i < |cookies| && PairIdentity(cookies[i]) == pair && (cookies[i].name == SESSION) == session
  }

  /** Both cookies of the session with this key are there, or neither. */
  ghost predicate Complete(cookies: seq<Cookie>, pair: string) {
    Has(cookies, pair, true) <==> Has(cookies, pair, false)
  }

  /** validateTradingViewAuthentication, as a statement. */
  ghost predicate Accepted(authentication: Authentication) {
    && authentication.schema == SCHEMA
    && authentication.cookies.Some? && |authentication.cookies.value| <= MAXIMUM_COOKIES
    && authentication.users.Some? && |authentication.users.value| <= MAXIMUM_USERS
    && UsersAllowed(authentication.users.value)
    && (authentication.cookies.value != [] ==> authentication.users.value != [])
    && (forall k :: 0 <= k < |authentication.cookies.value| ==> CookieAllowed(authentication.cookies.value[k]))
    && CookiesDistinct(authentication.cookies.value)
    && forall pair :: Complete(authentication.cookies.value, pair)
  }

  ghost predicate Partners(c: Cookie, d: Cookie) {
    SameSource(c, d) && c.name != d.name
  }

  /** Keys and names say which cookies belong together. */
  ghost predicate Keyed(cookies: seq<Cookie>) {
    forall i, j :: 0 <= i < |cookies| && 0 <= j < |cookies| ==> KeyedPair(cookies[i], cookies[j])
  }

  ghost predicate KeyedPair(c: Cookie, d: Cookie) {
    && (PairIdentity(c) == PairIdentity(d) <==> SameSource(c, d))
    && (Identity(c) == Identity(d) <==> SameSource(c, d) && c.name == d.name)
    && (c.name == d.name <==> (c.name == SESSION <==> d.name == SESSION))
  }

  lemma AllowedKeyed(cookies: seq<Cookie>)
    requires forall k :: 0 <= k < |cookies| ==> CookieAllowed(cookies[k])
    ensures Keyed(cookies)
  {
    forall i, j | 0 <= i < |cookies| && 0 <= j < |cookies| ensures KeyedPair(cookies[i], cookies[j]) {
      IdentityIff(cookies[i], cookies[j]);
      PairIdentityIff(cookies[i], cookies[j]);
    }
  }

  ghost predicate IsPartner(cookies: seq<Cookie>, i: nat, j: nat) {
    i < |cookies| && j < |cookies| && Partners(cookies[i], cookies[j])
  }

  lemma PartnerExists(cookies: seq<Cookie>, i: nat) returns (j: nat)
    requires Keyed(cookies) && i < |cookies| && Complete(cookies, PairIdentity(cookies[i]))
    ensures IsPartner(cookies, i, j)
  {
    var pair := PairIdentity(cookies[i]);
    var session := cookies[i].name == SESSION;
    assert Has(cookies, pair, session);
    j :| 0 <= j < |cookies| && PairIdentity(cookies[j]) == pair && (cookies[j].name == SESSION) == !session;
    assert KeyedPair(cookies[i], cookies[j]);
  }

  lemma PartnerUnique(cookies: seq<Cookie>, i: nat, j: nat, k: nat)
    requires Keyed(cookies) && CookiesDistinct(cookies) && IsPartner(cookies, i, j) && IsPartner(cookies, i, k)
    ensures j == k && i != j && IsPartner(cookies, j, i)
  {
    assert KeyedPair(cookies[i], cookies[j]) && KeyedPair(cookies[i], cookies[k]) && KeyedPair(cookies[j], cookies[k]);
    SameKeySameCookie(cookies, j, k);
  }

  lemma SameKeySameCookie(cookies: seq<Cookie>, j: nat, k: nat)
    requires CookiesDistinct(cookies) && j < |cookies| && k < |cookies| && Identity(cookies[j]) == Identity(cookies[k])
    ensures j == k
  {
    var keys := Map(Identity, cookies);
    assert keys[j] == keys[k];
  }

  /** Every accepted cookie has exactly one partner, the other cookie of its session, and is that cookie's partner. */
  lemma PartnerOf(authentication: Authentication, i: nat) returns (j: nat)
    requires Accepted(authentication) && i < |authentication.cookies.value|
    ensures var cookies := authentication.cookies.value;
      && IsPartner(cookies, i, j) && IsPartner(cookies, j, i) && i != j
      && forall k :: IsPartner(cookies, i, k) ==> k == j
  {
    var cookies := authentication.cookies.value;
    AllowedKeyed(cookies);
    j := PartnerExists(cookies, i);
    forall k | IsPartner(cookies, i, k) ensures k == j {
      PartnerUnique(cookies, i, j, k);
    }
    PartnerUnique(cookies, i, j, j);
  }

  ghost predicate OnlyPartner(n: nat, partner: (nat, nat) -> bool, i: nat, j: nat) {
    j < n && i != j && partner(i, j) && partner(j, i) && forall k: nat :: k < n && partner(i, k) ==> k == j
  }

  ghost predicate HasPartner(n: nat, partner: (nat, nat) -> bool, i: nat) {
    exists j: nat :: OnlyPartner(n, partner, i, j)
  }

  lemma PairedIsEven(n: nat, partner: (nat, nat) -> bool)
    requires n <= 4 && forall i: nat :: i < n ==> HasPartner(n, partner, i)
    ensures n in [0, 2, 4]
  {
    if n > 0 {
      assert HasPartner(n, partner, 0);
      var a: nat :| OnlyPartner(n, partner, 0, a);
      if n == 3 {
        assert HasPartner(n, partner, 3 - a) && HasPartner(n, partner, a);
        var b: nat :| OnlyPartner(n, partner, 3 - a, b);
      }
    }
  }

  /** So accepted cookies come in disjoint pairs of a session and its signature: none, two or four. */
  lemma CookiesInPairs(authentication: Authentication)
    requires Accepted(authentication)
    ensures |authentication.cookies.value| in [0, 2, 4]
  {
    var cookies := authentication.cookies.value;
    var partner := (i: nat, j: nat) => IsPartner(cookies, i, j);
    forall i: nat | i < |cookies| ensures HasPartner(|cookies|, partner, i) {
      var j := PartnerOf(authentication, i);
      assert OnlyPartner(|cookies|, partner, i, j);
    }
    PairedIsEven(|cookies|, partner);
  }

  // ---------------------------------------------------------------- the validating loops

  method ValidateUsers(users: seq<string>) returns (ok: bool)
    ensures ok <==> UsersAllowed(users)
  {
    var seen: set<string> := {};
    for index := 0 to |users|
      invariant UsersAllowed(users[..index]) && forall user :: user in seen <==> user in users[..index]
    {
      assert users[..index + 1] == users[..index] + [users[index]];
      UsersStep(users, index);
      if !UserAllowed(users[index]) || users[index] in seen ||
        (index > 0 && !Ordering.Less(users[index - 1], users[index])) {
        return false;
      }
      seen := seen + {users[index]};
    }
    assert users[..|users|] == users;
    ok := true;
  }

  lemma UsersStep(users: seq<string>, index: nat)
    requires index < |users| && UsersAllowed(users[..index])
    ensures UsersAllowed(users[..index + 1]) <==>
      UserAllowed(users[index]) && (index == 0 || Ordering.Less(users[index - 1], users[index]))
    ensures !UsersAllowed(users[..index + 1]) ==> !UsersAllowed(users)
    ensures users[index] in users[..index] ==> !UsersAllowed(users)
  {
    var before, after := users[..index], users[..index + 1];
    assert after == before + [users[index]];
    if UserAllowed(users[index]) && (index == 0 || Ordering.Less(users[index - 1], users[index])) {
      forall i, j | 0 <= i < j < |after| ensures Ordering.Less(after[i], after[j]) {
        if j == index && i < index - 1 {
          assert Ordering.Less(before[i], before[index - 1]);
          Ordering.LessTransitive(users[i], users[index - 1], users[index]);
        }
      }
    }
    if UsersAllowed(after) {
      assert index > 0 ==> Ordering.Less(after[index - 1], after[index]);
      assert UserAllowed(after[index]);
    }
    if users[index] in before && UsersAllowed(users) {
      var i :| 0 <= i < index && users[i] == users[index];
      assert Ordering.Less(users[i], users[index]);
      Ordering.LessTotal(users[i], users[index]);
    }
  }

  function Mask(session: bool, signature: bool): bv8 {
    (if session then 1 else 0) | (if signature then 2 else 0)
  }

  lemma MaskFacts(session: bool, signature: bool)
    ensures Mask(session, signature) | 1 == Mask(true, signature) && Mask(session, signature) | 2 == Mask(session, true)
    ensures Mask(session, signature) == 3 <==> session && signature
    ensures Mask(session, signature) == 0 <==> !session && !signature
  {
  }

  /** The masks say which cookies of each session there are. */
  ghost predicate Masks(cookies: seq<Cookie>, pairs: map<string, bv8>) {
    && (forall pair :: MaskAt(pairs, pair) == Mask(Has(cookies, pair, true), Has(cookies, pair, false)))
    && (forall pair :: pair in pairs ==> pairs[pair] != 0)
  }

  lemma HasOneMore(cookies: seq<Cookie>, c: Cookie, pair: string, session: bool)
    ensures Has(cookies + [c], pair, session) <==>
      Has(cookies, pair, session) || (PairIdentity(c) == pair && (c.name == SESSION) == session)
  {
    var all := cookies + [c];
    if Has(cookies, pair, session) {
      var i :| 0 <= i < |cookies| && PairIdentity(cookies[i]) == pair && (cookies[i].name == SESSION) == session;
      assert all[i] == cookies[i];
    }
    assert all[|cookies|] == c;
  }

  function MaskAt(pairs: map<string, bv8>, pair: string): bv8 {
    if pair in pairs then pairs[pair] else 0
  }

  lemma MasksOneMore(cookies: seq<Cookie>, c: Cookie, pairs: map<string, bv8>, pairs': map<string, bv8>)
    requires Masks(cookies, pairs)
    requires pairs' == pairs[PairIdentity(c) := MaskAt(pairs, PairIdentity(c)) | (if c.name == SESSION then 1 else 2)]
    ensures Masks(cookies + [c], pairs')
  {
    forall pair
      ensures MaskAt(pairs', pair) == Mask(Has(cookies + [c], pair, true), Has(cookies + [c], pair, false))
    {
      HasOneMore(cookies, c, pair, true);
      HasOneMore(cookies, c, pair, false);
      MaskFacts(Has(cookies, pair, true), Has(cookies, pair, false));
    }
    var key := PairIdentity(c);
    MaskFacts(Has(cookies, key, true) || c.name == SESSION, Has(cookies, key, false) || c.name != SESSION);
  }

  method AddToPair(pairs: map<string, bv8>, c: Cookie, ghost cookies: seq<Cookie>) returns (pairs': map<string, bv8>)
    requires Masks(cookies, pairs)
    ensures Masks(cookies + [c], pairs')
  {
    var key := PairIdentity(c);
    if c.name == SESSION {
      pairs' := pairs[key := MaskAt(pairs, key) | 1];
    } else {
      pairs' := pairs[key := MaskAt(pairs, key) | 2];
    }
    MasksOneMore(cookies, c, pairs, pairs');
  }

  ghost predicate Each<T>(ok: T -> bool, items: seq<T>) {
    forall k :: 0 <= k < |items| ==> ok(items[k])
  }

  lemma EachStep<T>(ok: T -> bool, items: seq<T>, i: nat)
    requires i < |items| && Each(ok, items[..i])
    ensures Each(ok, items[..i + 1]) <==> ok(items[i])
    ensures !ok(items[i]) ==> !Each(ok, items)
  {
    assert forall k :: 0 <= k < i ==> items[..i][k] == items[k];
    assert items[..i + 1][i] == items[i];
  }

  ghost predicate CookiesAllowed(cookies: seq<Cookie>) {
    Each(CookieAllowed, cookies)
  }

  lemma AllowedStep(cookies: seq<Cookie>, i: nat)
    requires i < |cookies| && CookiesAllowed(cookies[..i])
    ensures CookiesAllowed(cookies[..i + 1]) <==> CookieAllowed(cookies[i])
    ensures !CookieAllowed(cookies[i]) ==> !CookiesAllowed(cookies)
  {
    EachStep(CookieAllowed, cookies, i);
  }

  lemma KeysStep(cookies: seq<Cookie>, i: nat)
    requires i <= |cookies|
    ensures Map(Identity, cookies[..i]) == Map(Identity, cookies)[..i]
  {
  }

  ghost predicate SeenKeys(seen: set<string>, keys: seq<string>) {
    forall key :: key in seen <==> key in keys
  }

  lemma SeenStep(seen: set<string>, keys: seq<string>, i: nat)
    requires i < |keys| && SeenKeys(seen, keys[..i])
    ensures keys[i] in seen <==> keys[i] in keys[..i]
    ensures SeenKeys(seen + {keys[i]}, keys[..i + 1])
  {
    assert keys[..i + 1] == keys[..i] + [keys[i]];
  }

  method CheckCookie(cookies: seq<Cookie>, i: nat, seen: set<string>) returns (ok: bool, seen': set<string>)
    requires i < |cookies| && CookiesAllowed(cookies[..i])
    requires NoRepeat(Map(Identity, cookies)[..i]) && SeenKeys(seen, Map(Identity, cookies)[..i])
    ensures ok ==> CookiesAllowed(cookies[..i + 1])
    ensures ok ==> NoRepeat(Map(Identity, cookies)[..i + 1]) && SeenKeys(seen', Map(Identity, cookies)[..i + 1])
    ensures !ok ==> !CookiesAllowed(cookies) || !CookiesDistinct(cookies)
  {
    ghost var keys := Map(Identity, cookies);
    var key := Identity(cookies[i]);
    AllowedStep(cookies, i);
    NoRepeatStep(keys, i);
    SeenStep(seen, keys, i);
    ok := CookieAllowed(cookies[i]) && key !in seen;
    seen' := seen + {key};
  }

  /** The first `i` cookies are allowed and distinct, their keys are in `seen` and their pairs in `pairs`. */
  ghost predicate Taken(cookies: seq<Cookie>, i: nat, seen: set<string>, pairs: map<string, bv8>) {
    && i <= |cookies| && CookiesAllowed(cookies[..i]) && Masks(cookies[..i], pairs)
    && NoRepeat(Map(Identity, cookies)[..i]) && SeenKeys(seen, Map(Identity, cookies)[..i])
  }

  method TakeCookie(cookies: seq<Cookie>, i: nat, seen: set<string>, pairs: map<string, bv8>)
    returns (ok: bool, seen': set<string>, pairs': map<string, bv8>)
    requires Taken(cookies, i, seen, pairs) && i < |cookies|
    ensures ok ==> Taken(cookies, i + 1, seen', pairs')
    ensures !ok ==> !CookiesAllowed(cookies) || !CookiesDistinct(cookies)
  {
    assert cookies[..i + 1] == cookies[..i] + [cookies[i]];
    ok, seen' := CheckCookie(cookies, i, seen);
    pairs' := AddToPair(pairs, cookies[i], cookies[..i]);
  }

  method ValidateCookies(cookies: seq<Cookie>) returns (ok: bool)
    ensures ok <==> CookiesAllowed(cookies) && CookiesDistinct(cookies) && forall pair :: Complete(cookies, pair)
  {
    var seen: set<string>, pairs: map<string, bv8> := {}, map[];
    NothingTaken(cookies);
    for i := 0 to |cookies|
      invariant Taken(cookies, i, seen, pairs)
    {
      ok, seen, pairs := TakeCookie(cookies, i, seen, pairs);
      if !ok {
        return;
      }
    }
    AllTaken(cookies, seen, pairs);
    ok := AllPaired(cookies, pairs);
  }

  lemma NothingTaken(cookies: seq<Cookie>)
    ensures Taken(cookies, 0, {}, map[])
  {
    assert cookies[..0] == [];
    NoMasks();
  }

  lemma AllTaken(cookies: seq<Cookie>, seen: set<string>, pairs: map<string, bv8>)
    requires Taken(cookies, |cookies|, seen, pairs)
    ensures CookiesAllowed(cookies) && CookiesDistinct(cookies) && Masks(cookies, pairs)
  {
    assert cookies[..|cookies|] == cookies;
    KeysStep(cookies, |cookies|);
  }

  lemma NoMasks()
    ensures Masks([], map[])
  {
    forall pair ensures !Has([], pair, true) && !Has([], pair, false) {}
  }

  method AllPaired(ghost cookies: seq<Cookie>, pairs: map<string, bv8>) returns (ok: bool)
    requires Masks(cookies, pairs)
    ensures ok <==> forall pair :: Complete(cookies, pair)
  {
    CompleteIff(cookies, pairs);
    ok := forall pair :: pair in pairs ==> pairs[pair] == 3;
  }

  lemma CompleteIff(cookies: seq<Cookie>, pairs: map<string, bv8>)
    requires Masks(cookies, pairs)
    ensures (forall pair :: pair in pairs ==> pairs[pair] == 3) <==> forall pair :: Complete(cookies, pair)
  {
    assert forall pair :: MaskAt(pairs, pair) == Mask(Has(cookies, pair, true), Has(cookies, pair, false));
    forall pair
      ensures pair in pairs ==> (pairs[pair] == 3 <==> Complete(cookies, pair))
      ensures pair !in pairs ==> Complete(cookies, pair)
    {
      MaskFacts(Has(cookies, pair, true), Has(cookies, pair, false));
    }
  }

  /** validateTradingViewAuthentication. */
  method ValidateAuthentication(authentication: Authentication) returns (ok: bool)
    ensures ok <==> Accepted(authentication)
  {
    if authentication.schema != SCHEMA
      || authentication.cookies.None? || |authentication.cookies.value| > MAXIMUM_COOKIES
      || authentication.users.None? || |authentication.users.value| > MAXIMUM_USERS
    {
      return false;
    }
    ok := ValidateUsers(authentication.users.value);
    if !ok || (|authentication.cookies.value| > 0 && |authentication.users.value| == 0) {
      return false;
    }
    ok := ValidateCookies(authentication.cookies.value);
  }
}
