/** The HTTP routing table of one entry port. */
module Routing {
  import opened Wrappers
  import opened Subsequences

  datatype Route = Route(proxy: string, host: string, path: string)

  function LowerChar(c: char): char { if 'A' <= c <= 'Z' then c + 32 as char else c }

  function Lower(s: string): (r: string)
    ensures |r| == |s| && forall k :: 0 <= k < |s| ==> r[k] == LowerChar(s[k])
  {
    seq(|s|, i requires 0 <= i < |s| => LowerChar(s[i]))
  }

  /** A route checked and put in standard form, if its fields are legal. */
  function Normalize(r: Route): Option<Route> {
    if r.proxy == "" || r.host == "" then None
    else if r.path == "" then Some(Route(r.proxy, Lower(r.host), "/"))
    else if r.path[0] != '/' then None
    else Some(Route(r.proxy, Lower(r.host), r.path))
  }

  const NUL := '\0'

  /** What a host and a path are told apart by. */
  function RouteKey(r: Route): string { r.host + [NUL] + r.path }

  /** `path` lies under `prefix`. */
  predicate MatchesPathPrefix(path: string, prefix: string) {
    if prefix == "/" then true
    else if !(prefix <= path) then false
    else |path| == |prefix| || path[|prefix|] == '/'
  }

  predicate Legal(routes: seq<Route>) { forall r :: r in routes ==> Normalize(r).Some? }

  /** No two routes, at whatever places, have the same key. */
  predicate NoConflict(routes: seq<Route>) {
    forall i, j :: 0 <= i < j < |routes| ==> RouteKey(routes[i]) != RouteKey(routes[j])
  }

  function Normalized(routes: seq<Route>): seq<Route>
    requires Legal(routes)
  {
    seq(|routes|, i requires 0 <= i < |routes| => Normalize(routes[i]).value)
  }

  predicate LongestFirst(routes: seq<Route>) {
    forall i, j :: 0 <= i < j < |routes| ==> |routes[i].path| >= |routes[j].path|
  }

  /** Put behind all routes of at least its length, so that equal lengths keep their order. */
  function Inserted(r: Route, sorted: seq<Route>): (out: seq<Route>)
    ensures multiset(out) == multiset(sorted) + multiset{r}
    decreases |sorted|
  {
    if sorted == [] || |Last(sorted).path| >= |r.path| then sorted + [r]
    else
      assert sorted == Init(sorted) + [Last(sorted)];
      Inserted(r, Init(sorted)) + [Last(sorted)]
  }

  function SortedByLength(routes: seq<Route>): (out: seq<Route>)
    ensures multiset(out) == multiset(routes)
    decreases |routes|
  {
    if routes == [] then []
    else
      assert routes == Init(routes) + [Last(routes)];
      Inserted(Last(routes), SortedByLength(Init(routes)))
  }

  predicate AllAtLeast(routes: seq<Route>, n: nat) { forall r :: r in routes ==> |r.path| >= n }

  lemma AddShorter(routes: seq<Route>, r: Route)
    requires LongestFirst(routes) && AllAtLeast(routes, |r.path|)
    ensures LongestFirst(routes + [r])
  {
    forall k | 0 <= k < |routes| ensures |routes[k].path| >= |r.path| {
      assert routes[k] in routes;
    }
  }

  lemma {:induction false} InsertedLongestFirst(r: Route, sorted: seq<Route>, n: nat)
    requires LongestFirst(sorted) && AllAtLeast(sorted, n) && |r.path| >= n
    ensures LongestFirst(Inserted(r, sorted)) && AllAtLeast(Inserted(r, sorted), n)
    decreases |sorted|
  {
    if sorted == [] || |Last(sorted).path| >= |r.path| {
      assert AllAtLeast(sorted, |r.path|);
      AddShorter(sorted, r);
    } else {
      var init, last := Init(sorted), Last(sorted);
      assert last in sorted && AllAtLeast(init, |last.path|);
      InsertedLongestFirst(r, init, |last.path|);
      AddShorter(Inserted(r, init), last);
    }
  }

  lemma {:induction false} SortedLongestFirst(routes: seq<Route>)
    ensures LongestFirst(SortedByLength(routes))
    decreases |routes|
  {
    if routes != [] {
      SortedLongestFirst(Init(routes));
      InsertedLongestFirst(Last(routes), SortedByLength(Init(routes)), 0);
    }
  }

  lemma SameMembers<T>(a: seq<T>, b: seq<T>)
    requires multiset(a) == multiset(b)
    ensures forall x :: x in a <==> x in b
  {
    forall x ensures x in a <==> x in b {
      assert x in a <==> x in multiset(a);
      assert x in b <==> x in multiset(b);
    }
  }

  /** The table a list of routes makes, unless a route is illegal or two collide. */
  ghost function Build(routes: seq<Route>): Option<seq<Route>> {
    if Legal(routes) && NoConflict(Normalized(routes)) then Some(SortedByLength(Normalized(routes))) else None
  }

  method NewHTTPRouter(routes: seq<Route>) returns (table: Option<seq<Route>>)
    ensures table == Build(routes)
  {
    var normalized := [];
    for i := 0 to |routes|
      invariant Legal(routes[..i]) && normalized == Normalized(routes[..i])
    {
      var item := Normalize(routes[i]);
      assert routes[..i + 1] == routes[..i] + [routes[i]] && routes[i] in routes;
      if item.None? {
        return None;
      }
      normalized := normalized + [item.value];
    }
    assert routes[..|routes|] == routes;
    var conflict := DetectRouteConflict(normalized);
    if conflict {
      return None;
    }
    table := Some(SortedByLength(normalized));
  }

  method DetectRouteConflict(routes: seq<Route>) returns (conflict: bool)
    ensures conflict <==> !NoConflict(routes)
  {
    var seen := {};
    for i := 0 to |routes|
      invariant forall k :: k in seen <==> exists j :: 0 <= j < i && RouteKey(routes[j]) == k
      invariant forall j, k :: 0 <= j < k < i ==> RouteKey(routes[j]) != RouteKey(routes[k])
    {
      if RouteKey(routes[i]) in seen {
        return true;
      }
      seen := seen + {RouteKey(routes[i])};
    }
    return false;
  }

  function RequestPath(path: string): string { if path == "" then "/" else path }

  /** The first route of the table that fits. */
  function FirstMatch(table: seq<Route>, host: string, path: string): Option<string> {
    if table == [] then None
    else if table[0].host == host && MatchesPathPrefix(path, table[0].path) then Some(table[0].proxy)
    else FirstMatch(table[1..], host, path)
  }

  function Select(table: seq<Route>, host: string, path: string): Option<string> {
    FirstMatch(table, Lower(host), RequestPath(path))
  }

  // What routing means.

  /** `prefix` ends on a segment boundary of `path`. */
  predicate Under(path: string, prefix: string) {
    prefix == "/" || path == prefix || prefix + "/" <= path
  }

  predicate Fits(r: Route, host: string, path: string) {
    r.host == Lower(host) && Under(RequestPath(path), r.path)
  }

  lemma MatchesIsUnder(path: string, prefix: string)
    ensures MatchesPathPrefix(path, prefix) <==> Under(path, prefix)
  {
    if prefix <= path && |path| > |prefix| {
      assert prefix + "/" <= path <==> path[|prefix|] == '/';
    }
  }

  predicate FirstFit(table: seq<Route>, i: int, host: string, path: string) {
    0 <= i < |table| && Fits(table[i], host, path) && forall k :: 0 <= k < i ==> !Fits(table[k], host, path)
  }

  lemma {:induction false} FirstMatchIs(table: seq<Route>, host: string, path: string)
    ensures var m := FirstMatch(table, Lower(host), RequestPath(path));
            && (m.None? <==> forall r :: r in table ==> !Fits(r, host, path))
            && (m.Some? ==> exists i :: FirstFit(table, i, host, path) && m.value == table[i].proxy)
    decreases |table|
  {
    if table != [] {
      MatchesIsUnder(RequestPath(path), table[0].path);
      assert table == [table[0]] + table[1..];
      if !Fits(table[0], host, path) {
        FirstMatchIs(table[1..], host, path);
        var m := FirstMatch(table[1..], Lower(host), RequestPath(path));
        if m.Some? {
          var i :| FirstFit(table[1..], i, host, path) && m.value == table[1..][i].proxy;
          assert table[i + 1] == table[1..][i];
          forall k | 0 <= k < i + 1 ensures !Fits(table[k], host, path) {
            if k > 0 { assert table[k] == table[1..][k - 1]; }
          }
          assert FirstFit(table, i + 1, host, path);
        }
      }
    }
  }

  predicate SameLetter(c: char, d: char) {
    || c == d
    || ('A' <= c <= 'Z' && d as int == c as int + 32)
    || ('A' <= d <= 'Z' && c as int == d as int + 32)
  }

  /** The same host, however its letters are written. */
  predicate SameHostName(a: string, b: string) { |a| == |b| && forall k :: 0 <= k < |a| ==> SameLetter(a[k], b[k]) }

  lemma LowerTellsHosts(a: string, b: string)
    ensures Lower(a) == Lower(b) <==> SameHostName(a, b)
  {
    if Lower(a) == Lower(b) {
      forall k | 0 <= k < |a| ensures SameLetter(a[k], b[k]) {
        assert LowerChar(a[k]) == Lower(b)[k] == LowerChar(b[k]);
      }
    }
  }

  /** A legal route serves the requests for its host whose path lies under its own. */
  predicate Serves(r: Route, host: string, path: string) {
    && r.proxy != "" && r.host != "" && (r.path == "" || r.path[0] == '/')
    && SameHostName(r.host, host) && Under(if path == "" then "/" else path, if r.path == "" then "/" else r.path)
  }

  lemma ServesInStandardForm(r: Route, host: string, path: string)
    ensures Serves(r, host, path) <==> Normalize(r).Some? && Fits(Normalize(r).value, host, path)
  {
    LowerTellsHosts(r.host, host);
  }

  lemma AllServeInStandardForm(host: string, path: string)
    ensures forall r: Route :: Serves(r, host, path) <==> Normalize(r).Some? && Fits(Normalize(r).value, host, path)
  {
    forall r: Route { ServesInStandardForm(r, host, path); }
  }

  function PathLength(r: Route): nat { if r.path == "" then 1 else |r.path| }

  /** The serving route with the longest path among all given ones. */
  ghost predicate IsBest(r: Route, routes: seq<Route>, host: string, path: string) {
    && r in routes && Serves(r, host, path)
    && forall s :: s in routes && Serves(s, host, path) ==> PathLength(s) <= PathLength(r)
  }

  lemma NormalizedMember(routes: seq<Route>, x: Route)
    requires Legal(routes)
    ensures x in Normalized(routes) <==> exists r :: r in routes && Normalize(r).value == x
  {
    if r :| r in routes && Normalize(r).value == x {
      var i :| 0 <= i < |routes| && routes[i] == r;
      assert Normalized(routes)[i] == x;
    }
  }

  /** Prefixes of one path that are equally long are the same prefix. */
  lemma SameLengthSamePath(r: Route, s: Route, host: string, path: string)
    requires Serves(r, host, path) && Serves(s, host, path) && PathLength(r) == PathLength(s)
    ensures RouteKey(Normalize(r).value) == RouteKey(Normalize(s).value)
  {
    AllServeInStandardForm(host, path);
    PrefixOf(Normalize(r).value.path, RequestPath(path));
    PrefixOf(Normalize(s).value.path, RequestPath(path));
  }

  lemma PrefixOf(prefix: string, path: string)
    requires prefix != "" && prefix[0] == '/' && Under(path, prefix)
    ensures prefix == "/" || (|prefix| <= |path| && prefix == path[..|prefix|])
    ensures |prefix| == 1 ==> prefix == "/"
  {
    if prefix != "/" && path != prefix {
      assert prefix == (prefix + "/")[..|prefix|] == path[..|prefix|];
    }
  }

  lemma BestIsUnique(routes: seq<Route>, host: string, path: string, r: Route, s: Route)
    requires Legal(routes) && NoConflict(Normalized(routes))
    requires IsBest(r, routes, host, path) && IsBest(s, routes, host, path)
    ensures r == s
  {
    var i :| 0 <= i < |routes| && routes[i] == r;
    var j :| 0 <= j < |routes| && routes[j] == s;
    SameLengthSamePath(r, s, host, path);
    assert Normalized(routes)[i] == Normalize(r).value && Normalized(routes)[j] == Normalize(s).value;
  }

  lemma TableMembers(routes: seq<Route>)
    requires Build(routes).Some?
    ensures LongestFirst(Build(routes).value)
    ensures forall x :: x in Build(routes).value ==> exists r :: r in routes && Normalize(r).value == x
    ensures forall r :: r in routes ==> Normalize(r).value in Build(routes).value
  {
    var table := Build(routes).value;
    SortedLongestFirst(Normalized(routes));
    SameMembers(table, Normalized(routes));
    forall x ensures x in table <==> exists r :: r in routes && Normalize(r).value == x {
      NormalizedMember(routes, x);
    }
  }

  lemma LengthStays(r: Route)
    requires Normalize(r).Some?
    ensures PathLength(r) == |Normalize(r).value.path|
  {}

  lemma LaterIsShorter(table: seq<Route>, i: int, x: Route, host: string, path: string)
    requires LongestFirst(table) && FirstFit(table, i, host, path) && x in table && Fits(x, host, path)
    ensures |x.path| <= |table[i].path|
  {
    hide Fits;
    var k :| 0 <= k < |table| && table[k] == x;
    assert i <= k;
  }

  lemma FirstIsLongest(routes: seq<Route>, i: int, r: Route, host: string, path: string)
    requires Build(routes).Some? && FirstFit(Build(routes).value, i, host, path)
    requires r in routes && Normalize(r) == Some(Build(routes).value[i])
    ensures IsBest(r, routes, host, path)
  {
    var table := Build(routes).value;
    TableMembers(routes);
    ServesInStandardForm(r, host, path);
    LengthStays(r);
    hide Build, Fits, Serves, Normalize, PathLength, LongestFirst;
    forall s | s in routes && Serves(s, host, path) ensures PathLength(s) <= PathLength(r) {
      ServesInStandardForm(s, host, path);
      LengthStays(s);
      LaterIsShorter(table, i, Normalize(s).value, host, path);
    }
  }

  lemma FoundIsBest(routes: seq<Route>, i: int, host: string, path: string)
    requires Build(routes).Some? && FirstFit(Build(routes).value, i, host, path)
    ensures exists r :: IsBest(r, routes, host, path) && r.proxy == Build(routes).value[i].proxy
  {
    TableMembers(routes);
    assert Build(routes).value[i] in Build(routes).value;
    var r :| r in routes && Normalize(r).value == Build(routes).value[i];
    FirstIsLongest(routes, i, r, host, path);
  }

  /** A request is routed exactly when some route serves it, and then to the proxy of the one
      route with the longest prefix. */
  lemma SelectIsBest(routes: seq<Route>, host: string, path: string)
    requires Build(routes).Some?
    ensures var chosen := Select(Build(routes).value, host, path);
            && (chosen.None? <==> forall r :: r in routes ==> !Serves(r, host, path))
            && (chosen.Some? ==> exists r :: IsBest(r, routes, host, path) && r.proxy == chosen.value)
  {
    var table := Build(routes).value;
    FirstMatchIs(table, host, path);
    if Select(table, host, path).Some? {
      var i :| FirstFit(table, i, host, path) && Select(table, host, path).value == table[i].proxy;
      FoundIsBest(routes, i, host, path);
    } else {
      AllServeInStandardForm(host, path);
      TableMembers(routes);
    }
  }

  lemma {:induction false} Once<T>(s: seq<T>, x: T)
    requires forall i, j :: 0 <= i < j < |s| ==> s[i] != s[j]
    ensures multiset(s)[x] <= 1
    decreases |s|
  {
    if s != [] {
      Once(Init(s), x);
      assert s == Init(s) + [Last(s)];
      if Last(s) == x {
        forall i | 0 <= i < |s| - 1 ensures Init(s)[i] != x { assert s[i] != s[|s| - 1]; }
      }
    }
  }

  lemma TwiceIn<T>(s: seq<T>, i: nat, j: nat)
    requires i < j < |s| && s[i] == s[j]
    ensures multiset(s)[s[i]] >= 2
  {
    assert s == s[..i] + [s[i]] + s[i + 1..j] + [s[j]] + s[j + 1..];
  }

  lemma ConflictFollows(a: seq<Route>, b: seq<Route>)
    requires multiset(a) == multiset(b) && Legal(a) && Legal(b) && NoConflict(Normalized(a))
    ensures NoConflict(Normalized(b))
  {
    SameMembers(a, b);
    forall i, j | 0 <= i < j < |a| ensures a[i] != a[j] {
      assert RouteKey(Normalized(a)[i]) != RouteKey(Normalized(a)[j]);
    }
    forall i, j | 0 <= i < j < |b| ensures RouteKey(Normalized(b)[i]) != RouteKey(Normalized(b)[j]) {
      Once(a, b[i]);
      if b[i] == b[j] {
        TwiceIn(b, i, j);
        assert false;
      }
      DifferentKeys(a, b[i], b[j]);
    }
  }

  lemma DifferentKeys(a: seq<Route>, r: Route, s: Route)
    requires Legal(a) && NoConflict(Normalized(a)) && r in a && s in a && r != s
    ensures RouteKey(Normalize(r).value) != RouteKey(Normalize(s).value)
  {
    var k :| 0 <= k < |a| && a[k] == r;
    var l :| 0 <= l < |a| && a[l] == s;
    assert Normalized(a)[k] == Normalize(r).value && Normalized(a)[l] == Normalize(s).value;
  }

  /** The order in which routes are given changes neither whether the table can be built nor any answer. */
  lemma OrderDoesNotMatter(a: seq<Route>, b: seq<Route>, host: string, path: string)
    requires multiset(a) == multiset(b)
    ensures Build(a).Some? <==> Build(b).Some?
    ensures Build(a).Some? ==> Select(Build(a).value, host, path) == Select(Build(b).value, host, path)
  {
    SameMembers(a, b);
    assert Legal(a) <==> Legal(b);
    if Legal(a) {
      if NoConflict(Normalized(a)) { ConflictFollows(a, b); }
      if NoConflict(Normalized(b)) { ConflictFollows(b, a); }
    }
    if Build(a).Some? {
      SelectIsBest(a, host, path);
      SelectIsBest(b, host, path);
      var m, n := Select(Build(a).value, host, path), Select(Build(b).value, host, path);
      if m.Some? {
        var r :| IsBest(r, a, host, path) && r.proxy == m.value;
        assert r in b && Serves(r, host, path);
        var s :| IsBest(s, b, host, path) && s.proxy == n.value;
        BestIsUnique(b, host, path, r, s);
      } else {
        forall r | r in b ensures !Serves(r, host, path) { assert r in a; }
      }
    }
  }

  /** A prefix other than / that ends in / covers what follows only after a second slash. */
  lemma TrailingSlash(path: string, prefix: string)
    requires |prefix| > 1 && prefix[|prefix| - 1] == '/' && prefix < path
    ensures Under(path, prefix) <==> path[|prefix|] == '/'
  {
    assert prefix + "/" <= path <==> path[|prefix|] == '/';
  }
}
