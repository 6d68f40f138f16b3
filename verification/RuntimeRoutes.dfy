/** Which requests get to which proxy, of the configuration and of clients. */
module RuntimeRoutes {
  import opened Wrappers
  import opened Subsequences
  import opened EntryNames
  import opened Routing
  import opened Validation
  import opened RuntimeProxies

  /** The routes an HTTP registration asks for: every domain, and the subdomain if there is one, under
      every location, or under / if there is none; blanks around them do not count. */
  predicate Asks(r: Request, x: Route) {
    && x.proxy == r.name
    && ((exists d :: d in r.domains && x.host == Trim(d)) || (r.subdomain != "" && x.host == Trim(r.subdomain)))
    && (if r.locations == [] then x.path == "/"
        else exists l :: l in r.locations && x.path == if Trim(l) == "" then "/" else Trim(l))
  }

  /** It is refused if it has no host, a blank one, or a location that does not start with a slash. */
  predicate IllFormed(r: Request) {
    || (r.domains == [] && r.subdomain == "")
    || (exists d :: d in r.domains && Trim(d) == "") || (r.subdomain != "" && Trim(r.subdomain) == "")
    || (exists l :: l in r.locations && Trim(l) != "" && Trim(l)[0] != '/')
  }

  lemma {:induction false} AllRoutesAre(name: string, hosts: seq<string>, paths: seq<string>, x: Route)
    ensures x in AllRoutes(name, hosts, paths) <==>
            x.proxy == name && (exists h :: h in hosts && x.host == Trim(h)) &&
            (exists p :: p in paths && x.path == CleanPath(p))
    decreases |hosts|
  {
    if hosts != [] {
      var init, last := hosts[..|hosts| - 1], hosts[|hosts| - 1];
      assert hosts == init + [last];
      AllRoutesAre(name, init, paths, x);
      HostRoutesAre(name, last, paths, x);
    }
  }

  lemma HostRoutesAre(name: string, host: string, paths: seq<string>, x: Route)
    ensures x in HostRoutes(name, host, paths) <==>
            x.proxy == name && x.host == Trim(host) && exists p :: p in paths && x.path == CleanPath(p)
  {
    if x.proxy == name && x.host == Trim(host) {
      if p :| p in paths && x.path == CleanPath(p) {
        var i :| 0 <= i < |paths| && paths[i] == p;
        assert HostRoutes(name, host, paths)[i] == x;
      }
    }
  }

  /** A registration gets just the routes it asks for, or is refused. */
  lemma RegisteredRoutes(r: Request, x: Route)
    requires r.ptype == Some(Http)
    ensures RuntimeHTTPRoutes(r).None? <==> IllFormed(r)
    ensures RuntimeHTTPRoutes(r).Some? ==> (x in RuntimeHTTPRoutes(r).value <==> Asks(r, x))
  {
    AllRoutesAre(r.name, Hosts(r), Paths(r), x);
    HostsAre(r);
    PathsAre(r, x);
  }

  lemma HostsAre(r: Request)
    ensures forall h :: h in Hosts(r) <==> h in r.domains || (r.subdomain != "" && h == r.subdomain)
  {}

  lemma PathsAre(r: Request, x: Route)
    ensures (exists p :: p in Paths(r) && x.path == CleanPath(p)) <==>
            if r.locations == [] then x.path == "/"
            else exists l :: l in r.locations && x.path == if Trim(l) == "" then "/" else Trim(l)
    ensures (exists p :: p in Paths(r) && CleanPath(p)[0] != '/') <==>
            exists l :: l in r.locations && Trim(l) != "" && Trim(l)[0] != '/'
  {
    if r.locations == [] {
      NoTrim("/");
      assert Paths(r) == ["/"] && "/" in Paths(r) && CleanPath("/") == "/";
      assert forall p :: p in Paths(r) ==> p == "/";
    } else {
      assert forall l :: l in r.locations ==> CleanPath(l) == if Trim(l) == "" then "/" else Trim(l);
    }
  }

  /** The routes of a configured proxy on a port. */
  predicate Configured(http: seq<HttpBinding>, port: int, x: Route) {
    exists b :: b in http && b.port == port && x.proxy == b.name && x.host in b.hosts && x.path == b.path
  }

  lemma {:induction false} PortRoutesAre(http: seq<HttpBinding>, port: int, x: Route)
    ensures x in PortRoutes(http, port) <==> Configured(http, port, x)
    decreases |http|
  {
    if http != [] {
      var b := Last(http);
      Split(http);
      PortRoutesAre(Init(http), port, x);
      if x.proxy == b.name && x.host in b.hosts && x.path == b.path {
        var i :| 0 <= i < |b.hosts| && b.hosts[i] == x.host;
        assert RoutesOf(b)[i] == x;
      }
    }
  }

  lemma {:induction false} RoutesAtAre(runtime: seq<Runtime>, port: int, x: Route)
    ensures x in RoutesAt(runtime, port) <==>
            exists q :: q in runtime && q.ptype.Http? && EntryPort(q.entryName) == Some(port) && x in q.routes
    decreases |runtime|
  {
    if runtime != [] {
      var q := runtime[|runtime| - 1];
      assert runtime == runtime[..|runtime| - 1] + [q];
      RoutesAtAre(runtime[..|runtime| - 1], port, x);
    }
  }

  /** A proxy the request can get to on the port: a configured one, or a registered one whose entry is the
      port's. */
  predicate Offers(t: Tables, port: int, x: Route) {
    || Configured(t.config.http, port, x)
    || exists q :: q in t.runtime && q.ptype.Http? && EntryPort(q.entryName) == Some(port) && x in q.routes
  }

  /** The route serves the request, and none offered on the port that does is longer. */
  ghost predicate Longest(t: Tables, port: int, x: Route, host: string, path: string) {
    && Offers(t, port, x) && Serves(x, host, path)
    && forall y: Route :: Offers(t, port, y) && Serves(y, host, path) ==> PathLength(y) <= PathLength(x)
  }

  lemma OffersAreMerged(t: Tables, port: int)
    ensures forall x: Route :: x in Merged(t, port) <==> Offers(t, port, x)
  {
    forall x: Route ensures x in Merged(t, port) <==> Offers(t, port, x) {
      PortRoutesAre(t.config.http, port, x);
      RoutesAtAre(t.runtime, port, x);
    }
  }

  /** On every port that has a table a request gets to a proxy exactly if one offers a route that serves it,
      and then to the one whose route is the longest. */
  lemma RequestsAreRouted(t: Tables, port: int, host: string, path: string)
    requires Build(Merged(t, port)).Some?
    ensures var got := Select(Build(Merged(t, port)).value, host, path);
            && (got.None? <==> forall x: Route :: Offers(t, port, x) ==> !Serves(x, host, path))
            && (got.Some? ==> exists x :: Longest(t, port, x, host, path) && got.value == x.proxy)
  {
    hide Build, Serves, Select, Merged, Offers;
    SelectIsBest(Merged(t, port), host, path);
    OffersAreMerged(t, port);
    var got := Select(Build(Merged(t, port)).value, host, path);
    if got.Some? {
      var x :| IsBest(x, Merged(t, port), host, path) && x.proxy == got.value;
      assert Longest(t, port, x, host, path);
    }
  }

  /** The answer to a request a route serves: its proxy, or another that offers a longer one. */
  ghost predicate Answered(t: Tables, port: int, x: Route, host: string, path: string, got: Option<string>) {
    && got.Some?
    && (got.value == x.proxy ||
        exists y :: Longest(t, port, y, host, path) && PathLength(y) > PathLength(x) && got.value == y.proxy)
  }

  lemma OfferedIsAnswered(t: Tables, port: int, x: Route, host: string, path: string)
    requires Build(Merged(t, port)).Some? && Offers(t, port, x) && Serves(x, host, path)
    ensures Answered(t, port, x, host, path, Select(Build(Merged(t, port)).value, host, path))
  {
    hide Serves, Select, Merged, Offers, RouteKey, SortedByLength;
    RequestsAreRouted(t, port, host, path);
    OffersAreMerged(t, port);
    var got := Select(Build(Merged(t, port)).value, host, path);
    var y :| Longest(t, port, y, host, path) && got.value == y.proxy;
    if PathLength(y) == PathLength(x) {
      BestIsUnique(Merged(t, port), host, path, x, y);
    }
  }

  /** What an accepted HTTP registration asked for it gets: on the port of its entry, which is the one it
      asked for if it did, a request for any host and path it asked for is answered by the proxy, or by one
      that offers a longer path. */
  lemma AcceptedIsServed(t: Tables, r: Request, client: string, conn: nat, pick: Option<nat>, bound: Option<int>,
                         x: Route, host: string, path: string)
    requires Sound(t) && Possible(t, r, pick, bound) && r.ptype == Some(Http) && PortFits(t, r, pick)
    requires NewProxy(t, r, client, conn, pick, bound).1.None?
    requires Asks(r, x) && SameHostName(x.host, host) && Under(if path == "" then "/" else path, x.path)
    ensures !OpenEntry(t, r, pick, bound).Unavailable? && EntryPort(OpenEntry(t, r, pick, bound).name).Some?
    ensures var port := EntryPort(OpenEntry(t, r, pick, bound).name).value;
            var u := NewProxy(t, r, client, conn, pick, bound).0;
            && (r.remotePort > 0 ==> port == r.remotePort) && port in Ports(u.config, u.runtime)
            && Build(Merged(u, port)).Some?
            && Answered(u, port, x, host, path, Select(Build(Merged(u, port)).value, host, path))
  {
    AcceptedRoutes(t, r, client, conn, pick, bound, x);
    assert x.path != "";
    var port := EntryPort(OpenEntry(t, r, pick, bound).name).value;
    var u := NewProxy(t, r, client, conn, pick, bound).0;
    hide NewProxy, OpenEntry, Sound, Asks, Answered, Offers, Select;
    OffersAreMerged(u, port);
    LegalIn(Merged(u, port), x);
    OfferedIsAnswered(u, port, x, host, path);
  }

  lemma LegalIn(routes: seq<Route>, x: Route)
    requires Build(routes).Some? && x in routes
    ensures x.proxy != "" && x.host != "" && (x.path == "" || x.path[0] == '/')
  {}

  lemma AcceptedRoutes(t: Tables, r: Request, client: string, conn: nat, pick: Option<nat>, bound: Option<int>,
                       x: Route)
    requires Sound(t) && Possible(t, r, pick, bound) && r.ptype == Some(Http) && PortFits(t, r, pick)
    requires NewProxy(t, r, client, conn, pick, bound).1.None? && Asks(r, x)
    ensures !OpenEntry(t, r, pick, bound).Unavailable? && EntryPort(OpenEntry(t, r, pick, bound).name).Some?
    ensures var port := EntryPort(OpenEntry(t, r, pick, bound).name).value;
            var u := NewProxy(t, r, client, conn, pick, bound).0;
            && (r.remotePort > 0 ==> port == r.remotePort) && port in Ports(u.config, u.runtime)
            && Build(Merged(u, port)).Some? && Offers(u, port, x)
  {
    assert Addressed(t) && r.remotePort <= MAX_PORT && (r.remotePort < 0 ==> pick.Some?);
    hide NewProxy, OpenEntry, RuntimeHTTPRoutes, Sound, Asks, Build, Merged, PortFits;
    HTTPFits(t, r, client, conn, pick, bound);
    EntryFits(t, r, pick, bound);
    AcceptedIsRegistered(t, r, client, conn, pick, bound);
    RegisteredRoutes(r, x);
    var e, routes, u := OpenEntry(t, r, pick, bound), RuntimeHTTPRoutes(r).value,
                        NewProxy(t, r, client, conn, pick, bound).0;
    if r.remotePort > 0 { EntryPortOfName(r.remotePort); }
    RegisteredOffers(t, r, client, conn, e, routes, x);
  }

  lemma RegisteredOffers(t: Tables, r: Request, client: string, conn: nat, e: Entry, routes: seq<Route>, x: Route)
    requires r.ptype == Some(Http) && !e.Unavailable? && Addressed(t) && (e.Existing? ==> e.name in t.guestLns)
    requires EntryPort(e.name).Some? && x in routes
    requires Build(Merged(Without(t, r.name), EntryPort(e.name).value) + routes).Some?
    ensures var u, port := Registered(t, r, client, conn, e, routes), EntryPort(e.name).value;
            port in Ports(u.config, u.runtime) && Build(Merged(u, port)).Some? && Offers(u, port, x)
  {
    hide Build, EntryPort, Others, RoutesAt, PortRoutes;
    var u, port := Registered(t, r, client, conn, e, routes), EntryPort(e.name).value;
    var z := Newcomer(t, r, client, conn, e, routes);
    assert u.runtime == Others(t.runtime, r.name) + [z] && z in u.runtime;
    RoutesWith(PortRoutes(t.config.http, port), Others(t.runtime, r.name), z, port);
  }

  /** A proxy is registered and a visitor asks for one of its hosts on its port. */
  method RegisterAndAsk(gen: Generation, r: Request, client: string, conn: nat, pick: Option<nat>, bound: Option<int>,
                        host: string, path: string)
    returns (refused: Option<Rejection>, got: Option<string>)
    requires Sound(gen.Model()) && gen.Routed() && Possible(gen.Model(), r, pick, bound)
    requires r.ptype == Some(Http) && 0 < r.remotePort <= MAX_PORT
    modifies gen
    ensures refused.None? ==>
              forall x | Asks(r, x) && SameHostName(x.host, host) && Under(if path == "" then "/" else path, x.path) ::
                Answered(gen.Model(), r.remotePort, x, host, path, got)
  {
    hide NewProxy, OpenEntry, Asks, Answered;
    ghost var t := gen.Model();
    refused := gen.HandleNewProxy(r, client, conn, pick, bound);
    got := None;
    if r.remotePort in gen.httpRoutes {
      got := Select(gen.httpRoutes[r.remotePort], host, path);
    }
    if refused.None? {
      forall x | Asks(r, x) && SameHostName(x.host, host) && Under(if path == "" then "/" else path, x.path)
        ensures Answered(gen.Model(), r.remotePort, x, host, path, got)
      {
        AcceptedIsServed(t, r, client, conn, pick, bound, x, host, path);
      }
    }
  }

  /** A host is served as it is written: one with blanks around it passes validation, which does not count
      them, but is not found by its name alone. */
  lemma BlanksAreKept(x: Route, path: string)
    requires Serves(x, Trim(x.host), path)
    ensures Trim(x.host) == x.host
  {
    var a, b := TrimMeans(x.host);
    assert a == "" && b == "";
  }

  // When a registration is accepted.

  /** Nobody has the port, or, for an HTTP proxy, only HTTP proxies and their entry have. */
  predicate PortFree(t: Tables, http: bool, port: int) {
    forall n :: n in t.guestAddr && t.guestAddr[n] == port ==>
      http && ("http:" <= n || (exists b :: b in t.config.http && b.name == n) ||
               exists q :: q in t.runtime && q.name == n && q.ptype == Http)
  }

  /** What a registration asks for goes with the routes of its port. */
  ghost predicate RoutesGo(t: Tables, r: Request) {
    RuntimeHTTPRoutes(r).Some? && Build(Merged(t, r.remotePort) + RuntimeHTTPRoutes(r).value).Some?
  }

  /** A registration for a port in range is accepted if and only if it is well formed, its name is not
      registered, its port is free, its routes go with those of the port, and there is a socket for it. */
  lemma AcceptedExactly(t: Tables, r: Request, client: string, conn: nat, pick: Option<nat>, bound: Option<int>)
    requires Sound(t) && Possible(t, r, pick, bound) && 0 < r.remotePort <= 65535
    ensures NewProxy(t, r, client, conn, pick, bound).1.None? <==>
            && r.name != "" && r.ptype.Some? && (r.ptype == Some(Http) ==> !IllFormed(r))
            && r.name !in t.registry && PortFree(t, r.ptype == Some(Http), r.remotePort)
            && (r.ptype == Some(Http) ==> RoutesGo(t, r))
            && (bound.Some? || (r.ptype == Some(Http) && EntryName(r.remotePort) in t.guestLns))
  {
    if r.name != "" && r.ptype.Some? && PortAllowed(r) {
      if r.ptype == Some(Http) { RegisteredRoutes(r, Route("", "", "")); }
      if RuntimeHTTPRoutes(r).Some? {
        hide RuntimeHTTPRoutes, IllFormed, Conflicts, OpenEntry, Registered, Sound, Possible, PortFree;
        ConflictsAre(t, r.name, r.ptype.value.Http?, r.remotePort, RuntimeHTTPRoutes(r).value);
        EntryIsThere(t, r, pick, bound);
      }
    }
  }

  lemma ConflictsAre(t: Tables, name: string, http: bool, port: int, routes: seq<Route>)
    requires 0 < port <= 65535
    ensures Conflicts(t, name, http, port, routes).None? <==>
            name !in t.registry && PortFree(t, http, port) && (http ==> Build(Merged(t, port) + routes).Some?)
  {
    hide Build, Merged;
    assert Port16(port) == port;
  }

  lemma EntryIsThere(t: Tables, r: Request, pick: Option<nat>, bound: Option<int>)
    requires CanPick(t, pick) && r.ptype.Some? && 0 < r.remotePort
    ensures !OpenEntry(t, r, pick, bound).Unavailable? <==>
            bound.Some? || (r.ptype == Some(Http) && EntryName(r.remotePort) in t.guestLns)
  {
    hide EntryName;
  }

  /** A port in use is refused to all but HTTP proxies that share it. */
  lemma SecondIsRefused(t: Tables, r: Request, client: string, conn: nat, pick: Option<nat>, bound: Option<int>,
                        s: Request, client': string, conn': nat, pick': Option<nat>, bound': Option<int>)
    requires Sound(t) && Possible(t, r, pick, bound) && 0 < r.remotePort <= 65535 && s.remotePort == r.remotePort
    requires NewProxy(t, r, client, conn, pick, bound).1.None?
    requires var u := NewProxy(t, r, client, conn, pick, bound).0; CanPick(u, pick') && Addressed(u)
    requires s.ptype != Some(Http)
    ensures NewProxy(NewProxy(t, r, client, conn, pick, bound).0, s, client', conn', pick', bound').1.Some?
  {
    hide NewProxy, SharedUsed, OwnUsed, AllPlaced, SocketsOwned, RoutesBuild, ProxyNamesApart, PortsClear,
         AddressesKnown;
    assert CanPick(t, pick) && Addressed(t) && Port16(s.remotePort) == s.remotePort;
    hide *;
    TakesItsPort(t, r, client, conn, pick, bound);
    RefusedThere(NewProxy(t, r, client, conn, pick, bound).0, s, client', conn', pick', bound', r.name);
  }

  lemma TakesItsPort(t: Tables, r: Request, client: string, conn: nat, pick: Option<nat>, bound: Option<int>)
    requires Sound(t) && Possible(t, r, pick, bound) && 0 < r.remotePort <= 65535
    requires NewProxy(t, r, client, conn, pick, bound).1.None?
    ensures var u := NewProxy(t, r, client, conn, pick, bound).0;
            r.name in u.guestAddr && u.guestAddr[r.name] == r.remotePort
  {
    hide NewProxy, Registered, RuntimeHTTPRoutes, SharedUsed, OwnUsed, AllPlaced, SocketsOwned, RoutesBuild,
         ProxyNamesApart, PortsClear, AddressesKnown;
    assert CanPick(t, pick) && Addressed(t) && Located(t) && (bound.Some? ==> bound.value == r.remotePort);
    hide Sound, Possible;
    EntryPortOfName(r.remotePort);
    AcceptedIsRegistered(t, r, client, conn, pick, bound);
    hide EntryName, EntryPort, CanPick, Addressed;
    RegisteredPort(t, r, client, conn, OpenEntry(t, r, pick, bound), RuntimeHTTPRoutes(r).value);
  }

  lemma RegisteredPort(t: Tables, r: Request, client: string, conn: nat, e: Entry, routes: seq<Route>)
    requires r.ptype.Some? && !e.Unavailable? && Addressed(t) && (e.Existing? ==> e.name in t.guestLns)
    ensures var u := Registered(t, r, client, conn, e, routes);
            && r.name in u.guestAddr
            && u.guestAddr[r.name] == if r.ptype.value.Http? && e.name in t.guestLns then t.guestAddr[e.name]
                                      else EntryAddr(t, e)
  {
    hide Put;
  }

  lemma RefusedThere(u: Tables, s: Request, client: string, conn: nat, pick: Option<nat>, bound: Option<int>, n: string)
    requires CanPick(u, pick) && Addressed(u) && s.ptype != Some(Http)
    requires n in u.guestAddr && u.guestAddr[n] == Port16(s.remotePort)
    ensures NewProxy(u, s, client, conn, pick, bound).1.Some?
  {
    hide OpenEntry, Registered;
  }

  /** The client that registered a proxy closes it: its name and address are free again, and its socket is
      closed unless an HTTP entry is still in use. Anyone else changes nothing. */
  lemma OwnerCloses(t: Tables, client: string, q: Runtime)
    requires Sound(t) && q in t.runtime
    ensures var u := CloseProxy(t, client, q.name);
            if client != q.client then u == t
            else
              && u.registry == t.registry - {q.name} && q.name !in u.guestAddr && u.runtime == Others(t.runtime, q.name)
              && (forall p :: p in u.runtime <==> p in t.runtime && p.name != q.name)
              && (q.socket in u.open <==> q.ptype.Http? && Uses(t.config, u.runtime, q.entryName))
  {
    var k :| 0 <= k < |t.runtime| && t.runtime[k] == q;
    OneIndex(t.runtime, k);
    OthersMembers(t.runtime, q.name);
    if client == q.client {
      CloseSound(t, client, q.name);
    }
  }

  lemma OneIndex(rs: seq<Runtime>, k: nat)
    requires OneNameEach(rs) && k < |rs|
    ensures IndexOf(rs, rs[k].name) == k
  {
    assert rs[k] in rs;
  }
}
