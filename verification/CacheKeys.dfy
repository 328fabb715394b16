/**
 The cache keys of internal/api/cache_scope.go and the prefix and suffix tests with
 which internal/api/handlers.go invalidates them.  Strings are byte strings, as in Go.
 */
module CacheKeys {
  import opened Texts
  import opened Wrappers

  // --------------------------------------------------------------- the parts

  predicate Unreserved(c: Byte) {
    'a' <= c <= 'z' || 'A' <= c <= 'Z' || '0' <= c <= '9' || c == '-' || c == '_' || c == '.' || c == '~'
  }

  function Hex(n: nat): (c: Byte)
    requires n < 16
    ensures Unreserved(c)
  {
    if n < 10 then (n + 48) as char else (n + 55) as char
  }

  /** Form encoding of one byte (percent-encoding, section 2.1 of RFC 3986). */
  function EscapeByte(c: Byte): Text {
    if Unreserved(c) then [c] else if c == ' ' then "+" else ['%', Hex(c as int / 16), Hex(c as int % 16)]
  }

  function QueryEscape(s: Text): Text {
    if s == [] then [] else EscapeByte(s[0]) + QueryEscape(s[1..])
  }

  function Part(value: Text): Text {
    QueryEscape(TrimSpace(value))
  }

  /** Escaped text holds only unreserved bytes, plus and percent. */
  lemma {:induction false} EscapedBytes(s: Text, c: Byte)
    requires !Unreserved(c) && c != '+' && c != '%'
    ensures Without(QueryEscape(s), c)
  {
    if s != [] {
      EscapedBytes(s[1..], c);
      assert Without(EscapeByte(s[0]), c);
    }
  }

  lemma HexInjective(m: nat, n: nat)
    requires m < 16 && n < 16 && Hex(m) == Hex(n)
    ensures m == n
  {
  }

  lemma EscapeByteInjective(a: Byte, b: Byte, s: Text, t: Text)
    requires EscapeByte(a) + s == EscapeByte(b) + t
    ensures a == b && s == t
  {
    var l, r := EscapeByte(a) + s, EscapeByte(b) + t;
    assert l[0] == r[0];
    if l[0] == '%' {
      assert l[1] == r[1] && l[2] == r[2];
      HexInjective(a as int / 16, b as int / 16);
      HexInjective(a as int % 16, b as int % 16);
      assert s == l[3..] && t == r[3..];
    } else {
      assert s == l[1..] && t == r[1..];
    }
  }

  lemma {:induction false} EscapeInjective(a: Text, b: Text)
    requires QueryEscape(a) == QueryEscape(b)
    ensures a == b
  {
    if a != [] && b != [] {
      EscapeByteInjective(a[0], b[0], QueryEscape(a[1..]), QueryEscape(b[1..]));
      EscapeInjective(a[1..], b[1..]);
    }
  }

  // --------------------------------------------------------------- the keys

  datatype Scope = Scope(upstream: Text, viewer: Text, mode: Text, impersonate: Text)

  /** The first value of each query parameter. */
  type Query = map<string, Text>

  function Get(q: Query, name: string): Text {
    if name in q then q[name] else []
  }

  /** The known browse parameters, in the order in which url.Values encodes them. */
  const PARAMETERS: seq<Text> := ["limit", "long", "priority", "project", "search", "sort", "status", "type", "view"]

  function Pairs(names: seq<Text>, q: Query): seq<Text> {
    if names == [] then []
    else (if Get(q, names[0]) == [] then [] else [names[0] + ['='] + QueryEscape(Get(q, names[0]))])
         + Pairs(names[1..], q)
  }

  function CanonicalBrowseKey(q: Query): Text {
    Join(Pairs(PARAMETERS, q), '&')
  }

  function ScopeParts(kind: Text, scope: Scope): seq<Text> {
    [kind, Part(scope.upstream), Part(scope.viewer), Part(scope.mode), Part(scope.impersonate)]
  }

  function BrowseCacheKey(scope: Scope, q: Query): Text {
    Join(ScopeParts("browse", scope) + [Part(CanonicalBrowseKey(q))], ':')
  }

  function DetailCacheKey(scope: Scope, wantedID: Text): Text {
    Join(ScopeParts("detail", scope) + [Part(wantedID)], ':')
  }

  function BrowseCachePrefix(upstream: Text): Text {
    Join(["browse", Part(upstream)], ':') + ":"
  }

  function DetailCachePrefix(upstream: Text): Text {
    Join(["detail", Part(upstream)], ':') + ":"
  }

  function DetailCacheSuffix(wantedID: Text): Text {
    ":" + Part(wantedID)
  }

  lemma PartsHaveNoColon(kind: Text, scope: Scope, last: Text)
    requires Without(kind, ':')
    ensures AllWithout(ScopeParts(kind, scope) + [Part(last)], ':')
  {
    EscapedBytes(TrimSpace(scope.upstream), ':');
    EscapedBytes(TrimSpace(scope.viewer), ':');
    EscapedBytes(TrimSpace(scope.mode), ':');
    EscapedBytes(TrimSpace(scope.impersonate), ':');
    EscapedBytes(TrimSpace(last), ':');
  }

  /** The first two parts of a key are what a prefix test compares. */
  lemma PrefixTest(kind: Text, scope: Scope, last: Text, upstream: Text)
    requires Without(kind, ':')
    ensures Join([kind, Part(upstream)], ':') + ":" <= Join(ScopeParts(kind, scope) + [Part(last)], ':')
            <==> TrimSpace(upstream) == TrimSpace(scope.upstream)
  {
    var parts := ScopeParts(kind, scope) + [Part(last)];
    var tail := Join(parts[2..], ':');
    assert parts[1..][1..] == parts[2..];
    assert Join(parts, ':') == kind + [':'] + (Part(scope.upstream) + [':'] + tail);
    var prefix := Join([kind, Part(upstream)], ':') + ":";
    assert [kind, Part(upstream)][1..] == [Part(upstream)];
    assert Join([kind, Part(upstream)], ':') == kind + [':'] + Part(upstream);
    assert prefix == kind + [':'] + (Part(upstream) + [':'] + []);
    EscapedBytes(TrimSpace(upstream), ':');
    EscapedBytes(TrimSpace(scope.upstream), ':');
    if prefix <= Join(parts, ':') {
      FirstCut(kind, kind, Part(upstream) + [':'] + [], Part(scope.upstream) + [':'] + tail, ':');
      FirstCut(Part(upstream), Part(scope.upstream), [], tail, ':');
      EscapeInjective(TrimSpace(upstream), TrimSpace(scope.upstream));
    }
  }

  /** The last part of a key is what a suffix test compares. */
  lemma SuffixTest(kind: Text, scope: Scope, last: Text, wantedID: Text)
    requires Without(kind, ':')
    ensures HasSuffix(Join(ScopeParts(kind, scope) + [Part(last)], ':'), DetailCacheSuffix(wantedID))
            <==> TrimSpace(wantedID) == TrimSpace(last)
  {
    var front := Join(ScopeParts(kind, scope), ':');
    JoinLast(ScopeParts(kind, scope), Part(last), ':');
    var key := front + [':'] + Part(last);
    EscapedBytes(TrimSpace(last), ':');
    EscapedBytes(TrimSpace(wantedID), ':');
    if HasSuffix(key, DetailCacheSuffix(wantedID)) {
      var x := key[..|key| - |DetailCacheSuffix(wantedID)|];
      assert key == x + [':'] + Part(wantedID);
      LastCut(front, x, Part(last), Part(wantedID), ':');
      EscapeInjective(TrimSpace(last), TrimSpace(wantedID));
    }
  }

  /** Browse invalidation hits every key of the upstream, whoever views it, and no other. */
  lemma BrowseInvalidationIsExact(scope: Scope, q: Query, upstream: Text)
    ensures BrowseCachePrefix(upstream) <= BrowseCacheKey(scope, q)
            <==> TrimSpace(upstream) == TrimSpace(scope.upstream)
  {
    PrefixTest("browse", scope, CanonicalBrowseKey(q), upstream);
  }

  predicate DetailMatch(key: string, upstream: Text, wantedID: Text) {
    DetailCachePrefix(upstream) <= key && HasSuffix(key, DetailCacheSuffix(wantedID))
  }

  /** Detail invalidation hits exactly the keys of that upstream and item. */
  lemma DetailInvalidationIsExact(scope: Scope, cached: Text, upstream: Text, wantedID: Text)
    ensures DetailMatch(DetailCacheKey(scope, cached), upstream, wantedID)
            <==> TrimSpace(upstream) == TrimSpace(scope.upstream) && TrimSpace(wantedID) == TrimSpace(cached)
    ensures DetailCachePrefix(upstream) <= DetailCacheKey(scope, cached)
            <==> TrimSpace(upstream) == TrimSpace(scope.upstream)
  {
    PrefixTest("detail", scope, cached, upstream);
    SuffixTest("detail", scope, cached, wantedID);
  }

  // ------------------------------------------------------------ key soundness

  predicate SameScope(a: Scope, b: Scope) {
    && TrimSpace(a.upstream) == TrimSpace(b.upstream) && TrimSpace(a.viewer) == TrimSpace(b.viewer)
    && TrimSpace(a.mode) == TrimSpace(b.mode) && TrimSpace(a.impersonate) == TrimSpace(b.impersonate)
  }

  lemma SameKeySameParts(kind: Text, a: Scope, b: Scope, x: Text, y: Text)
    requires Without(kind, ':')
    ensures Join(ScopeParts(kind, a) + [Part(x)], ':') == Join(ScopeParts(kind, b) + [Part(y)], ':')
            <==> SameScope(a, b) && TrimSpace(x) == TrimSpace(y)
  {
    var p, q := ScopeParts(kind, a) + [Part(x)], ScopeParts(kind, b) + [Part(y)];
    if Join(p, ':') == Join(q, ':') {
      PartsHaveNoColon(kind, a, x);
      PartsHaveNoColon(kind, b, y);
      JoinInjective(p, q, ':');
      assert p[1] == q[1] && p[2] == q[2] && p[3] == q[3] && p[4] == q[4] && p[5] == q[5];
      EscapeInjective(TrimSpace(a.upstream), TrimSpace(b.upstream));
      EscapeInjective(TrimSpace(a.viewer), TrimSpace(b.viewer));
      EscapeInjective(TrimSpace(a.mode), TrimSpace(b.mode));
      EscapeInjective(TrimSpace(a.impersonate), TrimSpace(b.impersonate));
      EscapeInjective(TrimSpace(x), TrimSpace(y));
    }
  }

  lemma DetailKeysAreSound(a: Scope, b: Scope, x: Text, y: Text)
    ensures DetailCacheKey(a, x) == DetailCacheKey(b, y) <==> SameScope(a, b) && TrimSpace(x) == TrimSpace(y)
  {
    SameKeySameParts("detail", a, b, x, y);
  }

  lemma JoinedEmptyOrNot(parts: seq<Text>, sep: Byte)
    requires forall i :: 0 <= i < |parts| ==> parts[i] != []
    ensures Join(parts, sep) == [] <==> parts == []
  {
  }

  lemma SeparatorShows(parts: seq<Text>, sep: Byte)
    requires |parts| > 1
    ensures !Without(Join(parts, sep), sep)
  {
    assert Join(parts, sep)[|parts[0]|] == sep;
  }

  /** Joining loses nothing about separator-free, non-empty parts, however many there are. */
  lemma {:induction false} JoinDetermines(a: seq<Text>, b: seq<Text>, sep: Byte)
    requires AllWithout(a, sep) && AllWithout(b, sep) && Join(a, sep) == Join(b, sep)
    requires forall i :: 0 <= i < |a| ==> a[i] != []
    requires forall i :: 0 <= i < |b| ==> b[i] != []
    ensures a == b
  {
    JoinedEmptyOrNot(a, sep);
    JoinedEmptyOrNot(b, sep);
    if |a| > 1 && |b| > 1 {
      FirstCut(a[0], b[0], Join(a[1..], sep), Join(b[1..], sep), sep);
      FirstCut(b[0], a[0], Join(b[1..], sep), Join(a[1..], sep), sep);
      JoinDetermines(a[1..], b[1..], sep);
      assert a == [a[0]] + a[1..] && b == [b[0]] + b[1..];
    } else if |a| > 1 {
      SeparatorShows(a, sep);
    } else if |b| > 1 {
      SeparatorShows(b, sep);
    } else if |a| == 1 {
      assert a == [a[0]] && b == [b[0]];
    }
  }

  predicate IsName(s: Text) {
    s != [] && forall i :: 0 <= i < |s| ==> 'a' <= s[i] <= 'z'
  }

  ghost predicate Distinct(names: seq<Text>) {
    forall i, j :: 0 <= i < j < |names| ==> names[i] != names[j]
  }

  lemma {:induction false} PairsAreClean(names: seq<Text>, q: Query)
    requires forall i :: 0 <= i < |names| ==> IsName(names[i])
    ensures AllWithout(Pairs(names, q), '&')
    ensures forall i :: 0 <= i < |Pairs(names, q)| ==> Pairs(names, q)[i] != []
  {
    if names != [] {
      PairsAreClean(names[1..], q);
      EscapedBytes(Get(q, names[0]), '&');
      var pair := names[0] + ['='] + QueryEscape(Get(q, names[0]));
      assert Without(pair, '&');
    }
  }

  /** The first pair names one of the parameters. */
  lemma {:induction false} FirstPair(names: seq<Text>, q: Query) returns (i: nat)
    requires Pairs(names, q) != []
    ensures i < |names| && Pairs(names, q)[0] == names[i] + ['='] + QueryEscape(Get(q, names[i]))
  {
    if Get(q, names[0]) != [] {
      i := 0;
    } else {
      var j := FirstPair(names[1..], q);
      i := j + 1;
    }
  }

  /** A set parameter shows: its pair cannot be mistaken for a later parameter's. */
  lemma SetOnOneSide(names: seq<Text>, q: Query, r: Query)
    requires names != [] && Distinct(names) && forall i :: 0 <= i < |names| ==> IsName(names[i])
    requires Get(q, names[0]) != [] && Get(r, names[0]) == []
    ensures Pairs(names, q) != Pairs(names, r)
  {
    if Pairs(names, r) != [] {
      var rest := names[1..];
      assert Pairs(names, r) == Pairs(rest, r);
      var i := FirstPair(rest, r);
      var name := names[i + 1];
      assert name == rest[i] && name != names[0];
      if Pairs(names, q)[0] == Pairs(names, r)[0] {
        FirstCut(names[0], name, QueryEscape(Get(q, names[0])), QueryEscape(Get(r, name)), '=');
      }
    }
  }

  lemma PairsCons(names: seq<Text>, q: Query)
    requires names != []
    ensures Pairs(names, q) == Pairs([names[0]], q) + Pairs(names[1..], q)
  {
    var one := [names[0]];
    assert one[1..] == [];
  }

  ghost predicate Agree(names: seq<Text>, q: Query, r: Query) {
    forall i :: 0 <= i < |names| ==> Get(q, names[i]) == Get(r, names[i])
  }

  lemma AgreeCons(names: seq<Text>, q: Query, r: Query)
    requires names != []
    ensures Agree(names, q, r) <==> Get(q, names[0]) == Get(r, names[0]) && Agree(names[1..], q, r)
  {
    assert forall i :: 0 < i < |names| ==> names[i] == names[1..][i - 1];
    assert forall i :: 0 <= i < |names[1..]| ==> names[1..][i] == names[i + 1];
  }

  lemma SamePairSameValue(name: Text, q: Query, r: Query, x: seq<Text>, y: seq<Text>)
    requires IsName(name) && (Get(q, name) == [] <==> Get(r, name) == [])
    requires Pairs([name], q) + x == Pairs([name], r) + y
    ensures Get(q, name) == Get(r, name) && x == y
  {
    assert [name][1..] == [];
    var l, m := Pairs([name], q) + x, Pairs([name], r) + y;
    if Get(q, name) == [] {
      assert x == l && y == m;
    } else {
      assert l[0] == name + ['='] + QueryEscape(Get(q, name)) && m[0] == name + ['='] + QueryEscape(Get(r, name));
      assert l[0][|name| + 1..] == QueryEscape(Get(q, name)) && m[0][|name| + 1..] == QueryEscape(Get(r, name));
      EscapeInjective(Get(q, name), Get(r, name));
      assert x == l[1..] && y == m[1..];
    }
  }

  lemma {:induction false} PairsDetermine(names: seq<Text>, q: Query, r: Query)
    requires Distinct(names) && forall i :: 0 <= i < |names| ==> IsName(names[i])
    ensures Pairs(names, q) == Pairs(names, r) <==> Agree(names, q, r)
  {
    if names != [] {
      var name, rest := names[0], names[1..];
      PairsDetermine(rest, q, r);
      AgreeCons(names, q, r);
      if Get(q, name) != [] && Get(r, name) == [] {
        SetOnOneSide(names, q, r);
      } else if Get(q, name) == [] && Get(r, name) != [] {
        SetOnOneSide(names, r, q);
      } else {
        PairsCons(names, q);
        PairsCons(names, r);
        if Pairs(names, q) == Pairs(names, r) {
          SamePairSameValue(name, q, r, Pairs(rest, q), Pairs(rest, r));
        }
      }
    }
  }

  lemma ParametersAreNames()
    ensures Distinct(PARAMETERS) && forall i :: 0 <= i < |PARAMETERS| ==> IsName(PARAMETERS[i])
  {
    assert PARAMETERS[0] == "limit" && PARAMETERS[1] == "long";
    assert PARAMETERS[2] == "priority" && PARAMETERS[3] == "project";
    assert PARAMETERS[4] == "search" && PARAMETERS[5] == "sort" && PARAMETERS[6] == "status" && PARAMETERS[7] == "type";
    forall i, j | 0 <= i < j < |PARAMETERS| ensures PARAMETERS[i] != PARAMETERS[j] {
      assert || |PARAMETERS[i]| != |PARAMETERS[j]|
             || PARAMETERS[i][0] != PARAMETERS[j][0] || PARAMETERS[i][1] != PARAMETERS[j][1];
    }
  }

  // An encoded query has no spaces at its ends for TrimSpace to remove.

  predicate NoSpace(s: Text) {
    forall i :: 0 <= i < |s| ==> !IsSpace(s[i])
  }

  lemma {:induction false} JoinEnds(parts: seq<Text>, sep: Byte)
    requires !IsSpace(sep) && forall i :: 0 <= i < |parts| ==> NoSpace(parts[i])
    ensures NoSpace(Join(parts, sep))
  {
    if |parts| > 1 {
      JoinEnds(parts[1..], sep);
    }
  }

  lemma {:induction false} EscapedHasNoSpace(s: Text)
    ensures NoSpace(QueryEscape(s))
  {
    if s != [] {
      EscapedHasNoSpace(s[1..]);
    }
  }

  lemma {:induction false} PairsHaveNoSpace(names: seq<Text>, q: Query)
    requires forall i :: 0 <= i < |names| ==> IsName(names[i])
    ensures forall i :: 0 <= i < |Pairs(names, q)| ==> NoSpace(Pairs(names, q)[i])
  {
    if names != [] {
      PairsHaveNoSpace(names[1..], q);
      EscapedHasNoSpace(Get(q, names[0]));
    }
  }

  /** Two canonical browse keys agree exactly when every known parameter does. */
  lemma CanonicalKeyIsSound(q: Query, r: Query)
    ensures TrimSpace(CanonicalBrowseKey(q)) == TrimSpace(CanonicalBrowseKey(r)) <==> Agree(PARAMETERS, q, r)
  {
    ParametersAreNames();
    PairsHaveNoSpace(PARAMETERS, q);
    PairsHaveNoSpace(PARAMETERS, r);
    JoinEnds(Pairs(PARAMETERS, q), '&');
    JoinEnds(Pairs(PARAMETERS, r), '&');
    TrimKeeps(CanonicalBrowseKey(q));
    TrimKeeps(CanonicalBrowseKey(r));
    PairsAreClean(PARAMETERS, q);
    PairsAreClean(PARAMETERS, r);
    PairsDetermine(PARAMETERS, q, r);
    if CanonicalBrowseKey(q) == CanonicalBrowseKey(r) {
      JoinDetermines(Pairs(PARAMETERS, q), Pairs(PARAMETERS, r), '&');
    }
  }

  lemma BrowseKeysAreSound(a: Scope, b: Scope, q: Query, r: Query)
    ensures BrowseCacheKey(a, q) == BrowseCacheKey(b, r) <==> SameScope(a, b) && Agree(PARAMETERS, q, r)
  {
    SameKeySameParts("browse", a, b, CanonicalBrowseKey(q), CanonicalBrowseKey(r));
    CanonicalKeyIsSound(q, r);
  }

  // ------------------------------------------------------------- the filter

  datatype SortOrder = ByPriority | ByNewest | ByAlpha

  datatype BrowseFilter = BrowseFilter(
    status: Text, project: Text, kind: Text, priority: int, limit: int,
    search: Text, sort: SortOrder, view: Text, long: bool)

  function Digits(s: Text): Option<nat> {
    if s == [] then Some(0)
    else
      var front, c := Digits(s[..|s| - 1]), s[|s| - 1];
      if front.Some? && '0' <= c <= '9' then Some(front.value * 10 + (c as int - 48)) else None
  }

  /** strconv.Atoi on a 64-bit platform. */
  function Atoi(s: Text): Option<int> {
    var body := if s != [] && (s[0] == '-' || s[0] == '+') then s[1..] else s;
    var sign := if s != [] && s[0] == '-' then -1 else 1;
    if body == [] || Digits(body).None? then None
    else
      var n := sign * Digits(body).value;
      if -0x8000_0000_0000_0000 <= n < 0x8000_0000_0000_0000 then Some(n) else None
  }

  function ParseIntParam(q: Query, name: string, default: int): int {
    if Get(q, name) == [] then default else Atoi(Get(q, name)).GetOr(default)
  }

  function ParseQueryFilter(q: Query): BrowseFilter {
    var sort := if Get(q, "sort") == "newest" then ByNewest
                else if Get(q, "sort") == "alpha" then ByAlpha else ByPriority;
    BrowseFilter(
      Get(q, "status"), Get(q, "project"), Get(q, "type"), ParseIntParam(q, "priority", -1),
      ParseIntParam(q, "limit", 50), Get(q, "search"), sort, Get(q, "view"), Get(q, "long") == "true")
  }

  lemma SameQuerySameFilter(q: Query, r: Query)
    requires Agree(PARAMETERS, q, r)
    ensures ParseQueryFilter(q) == ParseQueryFilter(r)
  {
    assert Get(q, PARAMETERS[0]) == Get(r, PARAMETERS[0]) && Get(q, PARAMETERS[1]) == Get(r, PARAMETERS[1]);
    assert Get(q, PARAMETERS[2]) == Get(r, PARAMETERS[2]) && Get(q, PARAMETERS[3]) == Get(r, PARAMETERS[3]);
    assert Get(q, PARAMETERS[4]) == Get(r, PARAMETERS[4]) && Get(q, PARAMETERS[5]) == Get(r, PARAMETERS[5]);
    assert Get(q, PARAMETERS[6]) == Get(r, PARAMETERS[6]) && Get(q, PARAMETERS[7]) == Get(r, PARAMETERS[7]);
    assert Get(q, PARAMETERS[8]) == Get(r, PARAMETERS[8]);
  }

  /** Requests that share a browse key are in the same scope and ask for the same filter. */
  lemma SharedKeySharedFilter(a: Scope, b: Scope, q: Query, r: Query)
    requires BrowseCacheKey(a, q) == BrowseCacheKey(b, r)
    ensures SameScope(a, b) && ParseQueryFilter(q) == ParseQueryFilter(r)
  {
    BrowseKeysAreSound(a, b, q, r);
    SameQuerySameFilter(q, r);
  }

  // -------------------------------------------------------- hosted identities

  /** canonicalHostedCacheViewer: anonymous reads have their own bucket. */
  function HostedViewer(viewer: Text): Text {
    if TrimSpace(viewer) == [] then "anon" else "user:" + TrimSpace(viewer)
  }

  /** Hosted viewers share a cached read exactly when they are the same viewer; in
      particular no signed-in viewer is ever served the anonymous bucket. */
  lemma HostedViewersAreSeparate(v: Text, w: Text)
    ensures TrimSpace(HostedViewer(v)) == TrimSpace(HostedViewer(w)) <==> TrimSpace(v) == TrimSpace(w)
  {
    TrimmedEnds(v);
    TrimmedEnds(w);
    TrimKeeps(HostedViewer(v));
    TrimKeeps(HostedViewer(w));
    assert HostedViewer(v)[0] == 'a' || HostedViewer(v)[5..] == TrimSpace(v);
    assert HostedViewer(w)[0] == 'a' || HostedViewer(w)[5..] == TrimSpace(w);
  }
}

/** Which board and which bucket a request reads: the scope that readCacheScope resolves. */
module ReadScopes {
  import opened CacheKeys
  import opened Texts
  import opened Wrappers

  /** What the middleware or the public fallback says of a hosted request. */
  datatype Identity = Identity(upstream: Text, viewer: Text, isPublic: bool)

  datatype Caller = Caller(
    hosted: bool, identity: Option<Identity>, clientUpstream: Text, rigHandle: Text, mode: Text, impersonate: Text)

  /** canonicalHostedCacheUpstream: the hop alias names the same board. */
  function CanonicalUpstream(upstream: Text): Text {
    if TrimSpace(upstream) == "hop/wl-commons" then "wasteland/wl-commons" else TrimSpace(upstream)
  }

  /** WithResolvedReadIdentity. */
  function Resolved(i: Identity): Identity {
    Identity(CanonicalUpstream(i.upstream), TrimSpace(i.viewer), i.isPublic)
  }

  function Normalized(scope: Scope, hosted: bool): Scope {
    scope.(upstream := if scope.upstream == "" then "local" else scope.upstream,
           viewer := if hosted then HostedViewer(scope.viewer) else scope.viewer)
  }

  /** Hosted reads without a canonical identity bypass the caches. */
  predicate Cacheable(c: Caller) {
    c.hosted ==>
      && c.identity.Some?
      && var i := Resolved(c.identity.value);
      i.upstream != "" && (i.isPublic || i.viewer != "")
  }

  function ReadScope(c: Caller): Scope {
    var plain := Scope("", "", TrimSpace(c.mode), TrimSpace(c.impersonate));
    var scope :=
      if !c.hosted then plain.(upstream := TrimSpace(c.clientUpstream), viewer := TrimSpace(c.rigHandle))
      else if !Cacheable(c) then plain
      else
        var i := Resolved(c.identity.value);
        plain.(upstream := i.upstream, viewer := if i.isPublic then "" else i.viewer);
    Normalized(scope, c.hosted)
  }

  predicate HasCanonicalIdentity(c: Caller) {
    c.hosted ==>
      c.identity.Some? && Resolved(c.identity.value).upstream != "" && Resolved(c.identity.value).viewer != ""
  }

  /** The board a request is about; a server of its own with no upstream calls it local. */
  function Board(c: Caller): Text {
    if c.hosted then if c.identity.Some? then CanonicalUpstream(c.identity.value.upstream) else ""
    else if TrimSpace(c.clientUpstream) == "" then "local" else TrimSpace(c.clientUpstream)
  }

  function Viewer(c: Caller): Text {
    if !c.hosted then TrimSpace(c.rigHandle)
    else if c.identity.None? || c.identity.value.isPublic then ""
    else TrimSpace(c.identity.value.viewer)
  }

  lemma BoardIsTrimmed(c: Caller)
    ensures TrimSpace(Board(c)) == Board(c)
  {
    var upstream := if c.hosted && c.identity.Some? then c.identity.value.upstream else c.clientUpstream;
    TrimTwice(upstream);
    TrimKeeps("wasteland/wl-commons");
    TrimKeeps("local");
    TrimKeeps("");
  }

  /** A cached read, and a mutation that does not clear everything, is keyed by its board. */
  lemma ScopeIsBoard(c: Caller)
    requires Cacheable(c) || HasCanonicalIdentity(c)
    ensures ReadScope(c).upstream == Board(c)
  {
  }

  lemma ScopeViewer(c: Caller)
    requires Cacheable(c)
    ensures ReadScope(c).viewer == if c.hosted then HostedViewer(Viewer(c)) else Viewer(c)
  {
    TrimTwice(if c.hosted then c.identity.value.viewer else c.rigHandle);
  }

  lemma ViewerIsTrimmed(c: Caller)
    ensures TrimSpace(Viewer(c)) == Viewer(c)
  {
    TrimTwice(if c.hosted && c.identity.Some? then c.identity.value.viewer else c.rigHandle);
    TrimKeeps("");
  }

  /** Two cached reads share a browse entry exactly when they are for the same board, the
      same viewer, mode and impersonation, and ask for the same parameters. */
  lemma SharedReadsAreTheSame(a: Caller, b: Caller, q: Query, r: Query)
    requires Cacheable(a) && Cacheable(b) && a.hosted == b.hosted
    ensures BrowseCacheKey(ReadScope(a), q) == BrowseCacheKey(ReadScope(b), r) <==>
            && Board(a) == Board(b) && Viewer(a) == Viewer(b)
            && TrimSpace(a.mode) == TrimSpace(b.mode) && TrimSpace(a.impersonate) == TrimSpace(b.impersonate)
            && Agree(PARAMETERS, q, r)
  {
    BrowseKeysAreSound(ReadScope(a), ReadScope(b), q, r);
    ScopeIsBoard(a);
    ScopeIsBoard(b);
    BoardIsTrimmed(a);
    BoardIsTrimmed(b);
    ScopeViewer(a);
    ScopeViewer(b);
    ViewerIsTrimmed(a);
    ViewerIsTrimmed(b);
    HostedViewersAreSeparate(Viewer(a), Viewer(b));
    TrimTwice(a.mode);
    TrimTwice(b.mode);
    TrimTwice(a.impersonate);
    TrimTwice(b.impersonate);
  }
}
