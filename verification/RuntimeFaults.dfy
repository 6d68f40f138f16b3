/** What happens to the tables of runtime proxies when a registration is accepted that should not be. */
module RuntimeFaults {
  import opened Wrappers
  import opened EntryNames
  import opened Routing
  import opened Validation
  import opened RuntimeProxies
  import opened RuntimeRuns

  const SURVIVOR := Runtime("a", "c", 1, Tcp, "a", 0, [])
  const LEAVER := Runtime("b", "d", 2, Tcp, "b", 1, [])
  const TWO := Tables(ServerConfig([], [], [], []), [SURVIVOR, LEAVER], map["a" := 0, "b" := 1],
                      map["a" := 7, "b" := 8], {"a", "b"}, {0, 1}, 2)
  const TAKER := Request("a", Some(Tcp), 9, [], "", [])

  /** Of two sessions with a proxy each one ends, and the name of the other's is free. Whoever takes it
      leaves that proxy's socket open, and no proxy has it. */
  lemma SurvivorIsTaken()
    ensures Sound(TWO) && Complete(TWO) && !EndsAlone(TWO, 2)
    ensures var t := Cleanup(TWO, 2);
            && Sound(t) && Possible(t, TAKER, None, Some(9))
            && NewProxy(t, TAKER, "d", 3, None, Some(9)).1.None?
            && Ownerless(NewProxy(t, TAKER, "d", 3, None, Some(9)).0, SURVIVOR.socket)
  {
    hide RoutesBuild, SocketsOwned, OwnUsed, SharedUsed, Located, Build;
    TwoSound();
    CleanupSound(TWO, 2);
    LeaverLeaves();
    var t := Cleanup(TWO, 2);
    assert SURVIVOR in TWO.runtime && LEAVER in TWO.runtime && SURVIVOR in t.runtime;
    assert Conflicts(t, "a", false, 9, []).None?;
    TakenNameLeaks(t, TAKER, "d", 3, None, Some(9), SURVIVOR);
  }

  lemma LeaverLeaves()
    ensures var t := Cleanup(TWO, 2);
            && t.runtime == [SURVIVOR] && t.registry == {"b"} && t.guestAddr == map["a" := 7] &&
               t.guestLns == map["a" := 0]
  {
    var rs := TWO.runtime;
    assert rs[1..] == [LEAVER] && FirstOf([LEAVER], 2) == 0;
    assert FirstOf(rs, 2) == 1;
    assert Dropped(rs, 1) == [SURVIVOR];
    var t := Removed(TWO, 1);
    assert [SURVIVOR][1..] == [] && FirstOf([SURVIVOR], 2) == 1;
    assert AllRemoved(t, 2) == t && AllRemoved(TWO, 2) == t;
    assert Live([SURVIVOR]) == {"a"};
    assert t.guestLns == map["a" := 0] && t.guestAddr == map["a" := 7];
  }

  lemma TwoSound()
    ensures Sound(TWO) && Complete(TWO)
  {
    TwoNames();
    TwoOwn();
    forall p ensures Build(PortRoutes([], p) + RoutesAt(TWO.runtime, p)).Some? { TwoRoutes(p); }
  }

  lemma TwoNames()
    ensures ProxyNamesApart(TWO) && SharedUsed(TWO) && AllPlaced(TWO) && Located(TWO) && Complete(TWO)
  {
    TwoApart();
    TwoShared();
  }

  lemma TwoShared()
    ensures SharedUsed(TWO)
  {
    forall n | Canonical(n) ensures n !in TWO.guestLns {
      CanonicalHasColon(n);
      assert ':' !in "a" && ':' !in "b";
    }
  }

  lemma TwoApart()
    ensures ProxyNamesApart(TWO)
  {
    assert !Canonical("a") && !Canonical("b") by {
      if Canonical("a") { CanonicalHasColon("a"); }
      if Canonical("b") { CanonicalHasColon("b"); }
    }
    assert AllNames(TWO.config) == [];
    assert "a" != "b";
  }

  lemma TwoOwn()
    ensures OwnUsed(TWO) && SocketsOwned(TWO)
  {
    TwoStreams();
    assert TWO.guestLns["a"] == 0 && TWO.guestLns["b"] == 1;
  }

  lemma TwoStreams()
    ensures OwnUsed(TWO)
  {
    assert SURVIVOR in TWO.runtime && LEAVER in TWO.runtime;
    assert StreamOf(TWO.runtime, "a") && StreamOf(TWO.runtime, "b");
  }

  lemma TwoRoutes(p: int)
    ensures Build(PortRoutes([], p) + RoutesAt(TWO.runtime, p)).Some?
  {
    assert TWO.runtime == [SURVIVOR] + [LEAVER];
    RoutesAtConcat([SURVIVOR], [LEAVER], p);
    assert [SURVIVOR][..0] == [] && [LEAVER][..0] == [];
    assert PortRoutes([], p) + RoutesAt(TWO.runtime, p) == [];
  }

  /** A registration with a negative port whose routes collide on the port it comes to share. */
  ghost predicate Intrusion(t: Tables, r: Request, i: nat) {
    && i < |t.runtime| && r.ptype == Some(Http) && r.remotePort < 0 && r.name != ""
    && r.name !in t.registry && (forall q :: q in t.runtime ==> q.name != r.name)
    && (forall n :: n in t.guestAddr ==> t.guestAddr[n] != Port16(r.remotePort))
    && RuntimeHTTPRoutes(r).Some? && Build(Merged(t, r.remotePort) + RuntimeHTTPRoutes(r).value).Some?
    && EntryPort(t.runtime[i].entryName).Some?
    && Build(Merged(t, EntryPort(t.runtime[i].entryName).value) + RuntimeHTTPRoutes(r).value).None?
  }

  /** It is accepted, and the port loses its table and all its visitors. */
  lemma NegativePortBreaks(t: Tables, r: Request, client: string, conn: nat, i: nat)
    requires Sound(t) && CanPick(t, Some(i)) && Intrusion(t, r, i)
    ensures var (u, refused) := NewProxy(t, r, client, conn, Some(i), None);
            refused.None? && Build(Merged(u, EntryPort(t.runtime[i].entryName).value)).None?
  {
    assert t.runtime[i] in t.runtime && Placed(t, t.runtime[i]);
    FreePort(t, r.name, r.remotePort, RuntimeHTTPRoutes(r).value);
    UncheckedAccepted(t, r, client, conn, i);
    NegativePortUnchecked(t, r, client, conn, i, None);
    IndexOfFresh(t.runtime, r.name);
  }

  const SHARER := Runtime("a", "c", 1, Http, "http:80", 0, [Route("a", "h", "/")])
  const ONE := Tables(ServerConfig([], [], [], []), [SHARER], map["http:80" := 0],
                      map["http:80" := 80, "a" := 80], {"a"}, {0}, 1)
  const INTRUDER := Request("b", Some(Http), -1, ["h"], "", [])

  lemma IntrusionHappens(t: Tables, r: Request)
    requires t == ONE && r == INTRUDER
    ensures Sound(t) && CanPick(t, Some(0)) && Intrusion(t, r, 0)
  {
    OneSound();
    IntruderCollides(t, r);
  }

  lemma IntruderCollides(t: Tables, r: Request)
    requires t == ONE && r == INTRUDER
    ensures Intrusion(t, r, 0)
  {
    Http80();
    IntruderRoutes();
    OneBuilds(t, [Route("b", "h", "/")]);
    OnePorts(t);
    assert Port16(r.remotePort) == 65535;
    assert forall n :: n in t.guestAddr ==> t.guestAddr[n] != Port16(r.remotePort);
  }

  lemma OnePorts(t: Tables)
    requires t == ONE
    ensures forall n :: n in t.guestAddr ==> t.guestAddr[n] == 80
  {
    forall n | n in t.guestAddr ensures t.guestAddr[n] == 80 {
      assert n == "http:80" || n == "a";
    }
  }

  lemma OneBuilds(t: Tables, routes: seq<Route>)
    requires t == ONE && routes == [Route("b", "h", "/")]
    ensures Build(Merged(t, -1) + routes).Some? && Build(Merged(t, 80) + routes).None?
  {
    OneRoutes(-1);
    OneRoutes(80);
    OneRoute(routes[0]);
    TwiceTheSame();
    assert Merged(t, -1) + routes == routes;
    assert Merged(t, 80) + routes == [Route("a", "h", "/"), Route("b", "h", "/")];
  }

  lemma OneRoutes(p: int)
    ensures Merged(ONE, p) == if p == 80 then [Route("a", "h", "/")] else []
  {
    Http80();
    assert [SHARER][..0] == [];
    assert RoutesAt([], p) == [] && PortRoutes([], p) == [];
    assert RoutesAt([SHARER], p) == if p == 80 then SHARER.routes else [];
  }

  lemma OneRoute(r: Route)
    requires Normalize(r).Some?
    ensures Build([r]).Some? && Build([]).Some?
  {}

  lemma FreePort(t: Tables, name: string, port: int, routes: seq<Route>)
    requires name !in t.registry && (forall n :: n in t.guestAddr ==> t.guestAddr[n] != Port16(port))
    requires Build(Merged(t, port) + routes).Some?
    ensures Conflicts(t, name, true, port, routes).None?
  {}

  lemma UncheckedAccepted(t: Tables, r: Request, client: string, conn: nat, i: nat)
    requires CanPick(t, Some(i)) && Addressed(t) && r.ptype == Some(Http) && r.remotePort < 0 && r.name != ""
    requires t.runtime[i].entryName in t.guestLns && RuntimeHTTPRoutes(r).Some?
    requires Conflicts(t, r.name, true, r.remotePort, RuntimeHTTPRoutes(r).value).None?
    ensures NewProxy(t, r, client, conn, Some(i), None).1.None?
  {}

  lemma TwiceTheSame()
    ensures Build([Route("a", "h", "/"), Route("b", "h", "/")]).None?
  {
    var two := [Route("a", "h", "/"), Route("b", "h", "/")];
    if Legal(two) {
      assert RouteKey(Normalized(two)[0]) == RouteKey(Normalized(two)[1]);
    }
  }

  lemma Http80()
    ensures EntryName(80) == "http:80" && Canonical("http:80") && EntryPort("http:80") == Some(80)
  {
    assert Digits(80) == Digits(8) + ['0'] && Digits(8) == ['8'];
    PortIsCanonical(80);
  }

  lemma IntruderRoutes()
    ensures RuntimeHTTPRoutes(INTRUDER) == Some([Route("b", "h", "/")])
  {
    NoTrim("h");
    NoTrim("/");
    assert Hosts(INTRUDER) == ["h"] && Paths(INTRUDER) == ["/"];
    assert ["h"][..0] == [] && ["h"][0] == "h";
    assert HostRoutes("b", "h", ["/"]) == [Route("b", "h", "/")];
    assert AllRoutes("b", [], ["/"]) == [];
    assert AllRoutes("b", ["h"], ["/"]) == [Route("b", "h", "/")];
  }

  lemma OneSound()
    ensures Sound(ONE)
  {
    OneTables();
    forall p ensures Build(PortRoutes([], p) + RoutesAt([SHARER], p)).Some? {
      OneRoutes(p);
      OneRoute(Route("a", "h", "/"));
    }
  }

  lemma OneTables()
    ensures ProxyNamesApart(ONE) && SharedUsed(ONE) && OwnUsed(ONE) && AllPlaced(ONE) &&
            SocketsOwned(ONE) && Located(ONE)
  {
    OneNames();
    OneShared();
    assert ONE.guestLns["http:80"] == 0;
  }

  lemma OneNames()
    ensures ProxyNamesApart(ONE)
  {
    assert ':' !in "a";
    forall n | Canonical(n) ensures ':' in n { CanonicalHasColon(n); }
    assert AllNames(ONE.config) == [];
  }

  lemma OneShared()
    ensures SharedUsed(ONE) && OwnUsed(ONE) && AllPlaced(ONE) && Located(ONE)
  {
    Http80();
    assert SHARER in ONE.runtime && Uses(ONE.config, ONE.runtime, "http:80");
  }

  const NONE_YET := Tables(ServerConfig([], [], [], []), [], map[], map[], {}, {}, 0)
  const HIGH := Request("b", Some(Http), 70000, ["h"], "", [])

  /** Port 70000 is accepted, and its entry listens on 4464. */
  lemma HighPortHappens(client: string, conn: nat)
    ensures Sound(NONE_YET) && Possible(NONE_YET, HIGH, None, Some(4464))
    ensures var (u, refused) := NewProxy(NONE_YET, HIGH, client, conn, None, Some(4464));
            refused.None? && EntryName(70000) in u.guestAddr && u.guestAddr[EntryName(70000)] == 4464 && !AllPlaced(u)
  {
    hide NewProxy, Sound, EntryName, EntryPort;
    NothingSound();
    NameIsPrefixed();
    assert Port16(70000) == 4464;
    HighAccepted(client, conn);
    PrefixHasColon(EntryName(70000));
    assert ':' !in "b";
    HighPortMisplaced(NONE_YET, HIGH, client, conn, None, Some(4464));
  }

  lemma NameIsPrefixed()
    ensures HTTP_ENTRY_PREFIX <= EntryName(70000)
  {}

  lemma NothingSound()
    ensures Sound(NONE_YET)
  {
    assert AllNames(NONE_YET.config) == [];
    forall p ensures Build(PortRoutes([], p) + RoutesAt([], p)).Some? { assert Build([]).Some?; }
  }

  lemma HighAccepted(client: string, conn: nat)
    ensures NewProxy(NONE_YET, HIGH, client, conn, None, Some(4464)).1.None?
  {
    hide Build, Merged;
    var routes := [Route("b", "h", "/")];
    HighRoutes(routes);
    HighFree(routes);
  }

  lemma HighRoutes(routes: seq<Route>)
    requires routes == [Route("b", "h", "/")]
    ensures RuntimeHTTPRoutes(HIGH) == Some(routes)
  {
    IntruderRoutes();
    assert Hosts(HIGH) == Hosts(INTRUDER) && Paths(HIGH) == Paths(INTRUDER);
  }

  lemma HighFree(routes: seq<Route>)
    requires routes == [Route("b", "h", "/")]
    ensures Conflicts(NONE_YET, "b", true, 70000, routes).None?
  {
    OneRoute(routes[0]);
    assert Merged(NONE_YET, 70000) + routes == routes;
  }

  const IMPOSTOR := Request("http:80", Some(Udp), 5, [], "", [])

  /** A UDP proxy named after the entry of port 80 leaves everything in order, for now. */
  lemma ImpostorWaits(client: string, conn: nat)
    ensures Sound(NONE_YET) && Possible(NONE_YET, IMPOSTOR, None, Some(5))
    ensures var (u, refused) := NewProxy(NONE_YET, IMPOSTOR, client, conn, None, Some(5));
            refused.None? && Working(u) && !Lasting(u)
  {
    NothingSound();
    Http80();
    assert Conflicts(NONE_YET, "http:80", false, 5, []).None?;
    var u := NewProxy(NONE_YET, IMPOSTOR, client, conn, None, Some(5)).0;
    var x := Runtime("http:80", client, conn, Udp, "http:80", 0, []);
    assert u.runtime == [x] && u.guestLns == map[] && u.open == {0};
    ImpostorWorks(u, x);
    NewProxyLasts(NONE_YET, IMPOSTOR, client, conn, None, Some(5));
  }

  lemma ImpostorWorks(u: Tables, x: Runtime)
    requires u.runtime == [x] && x.ptype.Udp? && x.socket == 0 && u.config == NONE_YET.config
    requires u.guestLns == map[] && u.open == {0} && u.next == 1
    ensures Working(u)
  {
    assert x in u.runtime;
    assert AllNames(u.config) == [];
    assert [x][..0] == [] && RoutesAt([], 0) == [];
    forall p ensures Build(PortRoutes([], p) + RoutesAt([x], p)).Some? {
      assert PortRoutes([], p) + RoutesAt([x], p) == [];
    }
  }

  const FORGOTTEN := ONE.(registry := {})
  const TAKING := New(TAKER, "d", 3, Some(0), Some(9))
  const ABANDONED := Tables(ServerConfig([], [], [], []), [Runtime("a", "d", 3, Tcp, "a", 1, [])],
                            map["http:80" := 0, "a" := 1], map["http:80" := 80, "a" := 9], {"a"}, {0, 1}, 2)
  const JOINING := New(Joiner("z", 80, "a"), "e", 4, None, None)

  /** A TCP proxy takes the name of a forgotten HTTP proxy, whose entry stays open. The next HTTP proxy
      on that port takes the entry, and it is closed with that one. */
  lemma EntryIsTaken()
    ensures CanHappen(FORGOTTEN, TAKING) && Next(FORGOTTEN, TAKING) == ABANDONED && Ownerless(ABANDONED, SHARER.socket)
    ensures CanHappen(ABANDONED, JOINING) && Takes(ABANDONED, JOINING, SHARER.socket)
    ensures SHARER.socket !in Next(Next(ABANDONED, JOINING), Close("e", "z")).open
  {
    EntryIsAbandoned();
    EntryIsJoined();
    TakenThenClosed(ABANDONED, JOINING, SHARER.socket);
  }

  lemma EntryIsAbandoned()
    ensures CanHappen(FORGOTTEN, TAKING) && Next(FORGOTTEN, TAKING) == ABANDONED && Ownerless(ABANDONED, SHARER.socket)
  {
    OnePorts(ONE);
    assert Conflicts(FORGOTTEN, "a", false, 9, []).None?;
    assert IndexOf([SHARER], "a") == 0 && Dropped([SHARER], 0) == [];
    var u := Next(FORGOTTEN, TAKING);
    assert u.guestLns == ABANDONED.guestLns && u.guestAddr == ABANDONED.guestAddr;
    assert u.runtime == ABANDONED.runtime;
  }

  lemma EntryIsJoined()
    ensures CanHappen(ABANDONED, JOINING) && Takes(ABANDONED, JOINING, SHARER.socket)
    ensures Loose(ABANDONED, SHARER.socket) && NotConfigured(ABANDONED, SHARER.socket)
  {
    hide RuntimeHTTPRoutes, Conflicts, EntryPort, EntryName, Build, Merged;
    Http80();
    JoinerAsks([Route("z", "a", "/")]);
    JoinerFits([Route("z", "a", "/")]);
  }

  lemma JoinerAsks(routes: seq<Route>)
    requires routes == [Route("z", "a", "/")]
    ensures RuntimeHTTPRoutes(Joiner("z", 80, "a")) == Some(routes)
  {
    hide RuntimeHTTPRoutes;
    JoinerRoutes("z", 80, 1);
    assert As(1) == "a";
  }

  lemma JoinerFits(routes: seq<Route>)
    requires routes == [Route("z", "a", "/")]
    ensures Conflicts(ABANDONED, "z", true, 80, routes).None?
  {
    hide Build, Merged;
    JoinerBuilds(routes);
    assert forall n :: n in ABANDONED.guestAddr ==> n == "http:80" || n == "a";
  }

  lemma JoinerBuilds(routes: seq<Route>)
    requires routes == [Route("z", "a", "/")]
    ensures Build(Merged(ABANDONED, 80) + routes).Some?
  {
    OneRoute(routes[0]);
    assert ABANDONED.runtime[..0] == [] && RoutesAt([], 80) == [] && PortRoutes([], 80) == [];
    assert Merged(ABANDONED, 80) + routes == routes;
  }
}
