/** Runs of registrations, closings and ends of sessions: when they keep the tables in order, and what
    becomes of a socket that has lost its proxy. */
module RuntimeRuns {
  import opened Wrappers
  import opened EntryNames
  import opened Routing
  import opened Validation
  import opened RuntimeProxies

  datatype Op =
    | New(request: Request, client: string, conn: nat, pick: Option<nat>, bound: Option<int>)
    | Close(client: string, name: string)
    | End(conn: nat)

  ghost function Next(t: Tables, op: Op): Tables
    requires op.New? ==> CanPick(t, op.pick) && Addressed(t)
  {
    match op
    case New(r, client, conn, pick, bound) => NewProxy(t, r, client, conn, pick, bound).0
    case Close(client, name) => CloseProxy(t, client, name)
    case End(conn) => Cleanup(t, conn)
  }

  ghost predicate CanHappen(t: Tables, op: Op) {
    op.New? ==> Possible(t, op.request, op.pick, op.bound) && Addressed(t)
  }

  /** `t` leads to `u` by registrations, closings and ends of sessions, whatever they are. */
  ghost predicate Reaches(t: Tables, ops: seq<Op>, u: Tables)
    decreases |ops|
  {
    if ops == [] then u == t else CanHappen(t, ops[0]) && Reaches(Next(t, ops[0]), ops[1..], u)
  }

  ghost predicate Accepted(t: Tables, op: Op)
    requires CanHappen(t, op)
  {
    op.New? && NewProxy(t, op.request, op.client, op.conn, op.pick, op.bound).1.None?
  }

  /** Every registration that is accepted in the run is safe. */
  ghost predicate AllSafe(t: Tables, ops: seq<Op>)
    decreases |ops|
  {
    ops != [] ==>
      && CanHappen(t, ops[0]) && (Accepted(t, ops[0]) ==> Safe(t, ops[0].request, ops[0].pick))
      && AllSafe(Next(t, ops[0]), ops[1..])
  }

  /** A run whose accepted registrations are safe keeps the tables in order. */
  lemma {:induction false} RunSound(t: Tables, ops: seq<Op>, u: Tables)
    requires Sound(t) && Reaches(t, ops, u) && AllSafe(t, ops)
    ensures Sound(u)
    decreases |ops|
  {
    if ops != [] {
      NextSound(t, ops[0]);
      RunSound(Next(t, ops[0]), ops[1..], u);
    }
  }

  lemma NextSound(t: Tables, op: Op)
    requires Sound(t) && CanHappen(t, op) && (Accepted(t, op) ==> Safe(t, op.request, op.pick))
    ensures Sound(Next(t, op))
  {
    match op
    case New(r, client, conn, pick, bound) =>
      if Accepted(t, op) {
        SafeKeeps(t, r, client, conn, pick, bound);
      } else {
        RefusedKeeps(t, r, client, conn, pick, bound);
      }
    case Close(client, name) => CloseSound(t, client, name);
    case End(conn) => CleanupSound(t, conn);
  }

  // Lasting order.

  /** All is in order now, and stays so whatever safe steps follow. */
  ghost predicate Lasting(t: Tables) {
    forall ops: seq<Op>, u: Tables :: Reaches(t, ops, u) && AllSafe(t, ops) ==> Working(u)
  }

  lemma SoundLasts(t: Tables)
    requires Sound(t)
    ensures Lasting(t)
  {
    forall ops: seq<Op>, u: Tables | Reaches(t, ops, u) && AllSafe(t, ops) ensures Working(u) {
      RunSound(t, ops, u);
    }
  }

  lemma BrokenNow(t: Tables)
    requires !Working(t)
    ensures !Lasting(t)
  {
    assert Reaches(t, [], t) && AllSafe(t, []);
  }

  /** Safe steps that lead to disorder. */
  lemma BrokenLater(t: Tables, op: Op)
    requires CanHappen(t, op) && (Accepted(t, op) ==> Safe(t, op.request, op.pick)) && !Lasting(Next(t, op))
    ensures !Lasting(t)
  {
    var u := Next(t, op);
    var ops: seq<Op>, w: Tables :| Reaches(u, ops, w) && AllSafe(u, ops) && !Working(w);
    assert ([op] + ops)[1..] == ops;
    assert Reaches(t, [op] + ops, w) && AllSafe(t, [op] + ops);
  }

  // The clauses of safety, one by one.

  /** A socket that is open though no proxy and no entry in use has it. */
  ghost predicate Ownerless(t: Tables, s: Socket) {
    && s in t.open && (forall p :: p in t.runtime ==> p.socket != s)
    && (forall n :: n in t.guestLns && t.guestLns[n] == s ==>
          !ConfigStream(t.config, n) && !StreamOf(t.runtime, n) && !Uses(t.config, t.runtime, n))
  }

  lemma OwnerlessBreaks(t: Tables, s: Socket)
    requires Ownerless(t, s)
    ensures !Working(t)
  {}

  /** Taking the name of a live proxy that is not replaceable leaves its socket open, with no proxy to
      close it. */
  lemma TakenNameLeaks(t: Tables, r: Request, client: string, conn: nat, pick: Option<nat>, bound: Option<int>,
                       q: Runtime)
    requires Sound(t) && Possible(t, r, pick, bound) && q in t.runtime && q.name == r.name
    requires PortFits(t, r, pick) && !Replaceable(t, r, pick, q)
    requires NewProxy(t, r, client, conn, pick, bound).1.None? && NameFits(t, r.name, r.ptype.value)
    ensures Ownerless(NewProxy(t, r, client, conn, pick, bound).0, q.socket)
  {
    AcceptedFits(t, r, client, conn, pick, bound);
    AcceptedIsRegistered(t, r, client, conn, pick, bound);
    var e, routes := OpenEntry(t, r, pick, bound), RuntimeHTTPRoutes(r).value;
    var base, x := Without(t, r.name), Newcomer(Without(t, r.name), r, client, conn, e, routes);
    WithoutNames(t, r.name);
    RegisteredReplaces(t, r, client, conn, e, routes);
    RegisteredEnters(base, r, client, conn, e, routes);
    var u := Registered(base, r, client, conn, e, routes);
    if x.ptype.Http? && q.ptype.Http? {
      assert r.remotePort > 0 || pick.Some?;
      assert x.entryName == EntryKey(t, r, pick) != q.entryName;
    }
    ReplacedLeaks(t, u, x, q);
  }

  lemma ReplacedLeaks(t: Tables, u: Tables, x: Runtime, q: Runtime)
    requires Sound(t) && q in t.runtime && q.name == x.name && Entered(Without(t, x.name), u, x)
    requires NameFits(t, x.name, x.ptype)
    requires q.ptype.Http? ==> !Uses(t.config, Others(t.runtime, x.name), q.entryName)
    requires q.ptype.Http? && x.ptype.Http? ==> x.entryName != q.entryName
    ensures Ownerless(u, q.socket)
  {
    NoOtherOwner(t, u, x, q);
    forall n | n in u.guestLns && u.guestLns[n] == q.socket
      ensures !ConfigStream(u.config, n) && !StreamOf(u.runtime, n) && !Uses(u.config, u.runtime, n)
    {
      EntryLosesOwner(t, u, x, q, n);
    }
  }

  lemma NoOtherOwner(t: Tables, u: Tables, x: Runtime, q: Runtime)
    requires Sound(t) && q in t.runtime && q.name == x.name && Entered(Without(t, x.name), u, x)
    requires q.ptype.Http? ==> !Uses(t.config, Others(t.runtime, x.name), q.entryName)
    requires q.ptype.Http? && x.ptype.Http? ==> x.entryName != q.entryName
    ensures q.socket in t.open && q.socket in u.open && x.socket != q.socket
    ensures forall p :: p in u.runtime ==> p.socket != q.socket
    ensures forall n :: n in u.guestLns && u.guestLns[n] == q.socket ==> n in t.guestLns && t.guestLns[n] == q.socket
  {
    hide Build, RoutesBuild, Merged, EntryPort, EntryName, Barred, SharedUsed, Others;
    assert Placed(t, q);
    NewcomerApart(t, u, x, q);
    OthersMembers(t.runtime, x.name);
    forall p | p in Others(t.runtime, x.name) ensures p.socket != q.socket {
      assert Placed(t, p);
    }
  }

  lemma NewcomerApart(t: Tables, u: Tables, x: Runtime, q: Runtime)
    requires Sound(t) && q in t.runtime && q.name == x.name && Entered(Without(t, x.name), u, x)
    requires q.ptype.Http? && x.ptype.Http? ==> x.entryName != q.entryName
    ensures q.socket in t.open && x.socket != q.socket
  {
    hide Build, RoutesBuild, Merged, EntryPort, EntryName, Barred, SharedUsed, OwnUsed;
    assert Placed(t, q);
  }

  lemma EntryLosesOwner(t: Tables, u: Tables, x: Runtime, q: Runtime, n: string)
    requires Sound(t) && q in t.runtime && q.name == x.name && Entered(Without(t, x.name), u, x)
    requires NameFits(t, x.name, x.ptype)
    requires q.ptype.Http? ==> !Uses(t.config, Others(t.runtime, x.name), q.entryName)
    requires q.ptype.Http? && x.ptype.Http? ==> x.entryName != q.entryName
    requires n in t.guestLns && t.guestLns[n] == q.socket && n in u.guestLns && u.guestLns[n] == q.socket
    requires x.socket != q.socket
    ensures !ConfigStream(u.config, n) && !StreamOf(u.runtime, n) && !Uses(u.config, u.runtime, n)
  {
    hide Build, RoutesBuild, Merged, EntryPort, EntryName;
    OthersMembers(t.runtime, x.name);
    assert Placed(t, q);
    ConfigStreamNamed(t.config, n);
    UsesEntered(t, u, x, n);
    if q.ptype.Http? {
      assert n == q.entryName;
      CanonicalHasColon(n);
    } else {
      assert !q.ptype.Udp? && n == q.name;
      StreamNameUnused(t, n);
    }
  }

  /** The name of a stream proxy is no shared entry's, in use. */
  lemma StreamNameUnused(t: Tables, n: string)
    requires Sound(t) && !Canonical(n)
    ensures !Uses(t.config, t.runtime, n)
  {
    forall b | b in t.config.http ensures EntryName(b.port) != n { PortIsCanonical(b.port); }
    forall p | p in t.runtime && p.ptype.Http? ensures p.entryName != n { assert Placed(t, p); }
  }

  /** An HTTP port above 65535 gives an entry that is no port's: if it is opened, it listens on the low
      sixteen bits of the number it is named after and routed under. */
  lemma HighPortMisplaced(t: Tables, r: Request, client: string, conn: nat, pick: Option<nat>, bound: Option<int>)
    requires Sound(t) && Possible(t, r, pick, bound) && r.ptype == Some(Http) && r.remotePort > MAX_PORT
    requires NewProxy(t, r, client, conn, pick, bound).1.None?
    ensures var u, n := NewProxy(t, r, client, conn, pick, bound).0, EntryName(r.remotePort);
            && n in u.guestLns && EntryPort(n) == Some(r.remotePort) && n in u.guestAddr
            && (n != r.name && n !in t.guestLns && Port16(r.remotePort) != 0 ==>
                  u.guestAddr[n] == Port16(r.remotePort))
            && !AllPlaced(u)
  {
    EntryPortOfName(r.remotePort);
    AcceptedIsRegistered(t, r, client, conn, pick, bound);
    var u := NewProxy(t, r, client, conn, pick, bound).0;
    var x := u.runtime[|u.runtime| - 1];
    assert x in u.runtime && x.entryName == EntryName(r.remotePort) && !Placed(u, x);
  }

  /** A negative HTTP port with no HTTP proxy to share with makes an entry under the proxy's own name,
      whose routes no port has. */
  lemma NegativePortUnplaced(t: Tables, r: Request, client: string, conn: nat, bound: Option<int>)
    requires Sound(t) && Possible(t, r, None, bound) && r.ptype == Some(Http) && r.remotePort < 0 && !Canonical(r.name)
    requires NewProxy(t, r, client, conn, None, bound).1.None?
    ensures var u := NewProxy(t, r, client, conn, None, bound).0;
            r.name in u.guestLns && !AllPlaced(u)
  {
    AcceptedIsRegistered(t, r, client, conn, None, bound);
    var u := NewProxy(t, r, client, conn, None, bound).0;
    var x := u.runtime[|u.runtime| - 1];
    assert x in u.runtime && x.entryName == r.name && !Placed(u, x);
  }

  /** A negative HTTP port shares the entry of whatever runtime HTTP proxy is met first, while the
      routes are checked against a port that has none: the table of the shared port survives exactly
      if the routes happen to fit there. */
  lemma NegativePortUnchecked(t: Tables, r: Request, client: string, conn: nat, i: nat, bound: Option<int>)
    requires Sound(t) && CanPick(t, Some(i)) && r.ptype == Some(Http) && r.remotePort < 0
    requires NewProxy(t, r, client, conn, Some(i), bound).1.None?
    ensures EntryPort(EntryKey(t, r, Some(i))).Some?
    ensures var u, p := NewProxy(t, r, client, conn, Some(i), bound).0, EntryPort(EntryKey(t, r, Some(i))).value;
            Build(Merged(u, p)).Some? <==> RoutesFit(t, r, Some(i))
  {
    var y := t.runtime[i];
    assert y in t.runtime && Placed(t, y);
    AcceptedIsRegistered(t, r, client, conn, Some(i), bound);
    var p, routes := EntryPort(y.entryName).value, RuntimeHTTPRoutes(r).value;
    var x := Runtime(r.name, client, conn, Http, y.entryName, y.socket, routes);
    assert NewProxy(t, r, client, conn, Some(i), bound).0.runtime == Others(t.runtime, r.name) + [x];
    RoutesWith(PortRoutes(t.config.http, p), Others(t.runtime, r.name), x, p);
  }

  /** A stream proxy whose name spells a shared entry takes that entry's place in the table. */
  lemma EntryNameTaken(t: Tables, r: Request, client: string, conn: nat, pick: Option<nat>, bound: Option<int>)
    requires Sound(t) && Possible(t, r, pick, bound) && r.ptype.Some? && IsStream(r.ptype.value) && Canonical(r.name)
    requires NewProxy(t, r, client, conn, pick, bound).1.None?
    ensures !Working(NewProxy(t, r, client, conn, pick, bound).0)
  {
    AcceptedIsRegistered(t, r, client, conn, pick, bound);
    var u := NewProxy(t, r, client, conn, pick, bound).0;
    OthersMembers(t.runtime, r.name);
    if r.name in t.guestLns {
      var s := t.guestLns[r.name];
      assert s in t.guestLns.Values && s in u.open && s !in u.guestLns.Values;
      assert !UdpOn(u.runtime, s);
    } else {
      assert r.name in u.guestLns && !Uses(u.config, u.runtime, r.name);
    }
  }

  // A name that spells an entry: harm comes with the entry.

  function As(n: nat): string { seq(n, _ => 'a') }

  lemma {:induction false} LongerThanNames(names: set<string>) returns (n: nat)
    ensures n > 0 && forall m :: m in names ==> |m| < n
    decreases |names|
  {
    if names == {} {
      return 1;
    }
    var one :| one in names;
    var k := LongerThanNames(names - {one});
    n := if |one| < k then k else |one| + 1;
    forall m | m in names ensures |m| < n {
      if m != one { assert m in names - {one}; }
    }
  }

  lemma {:induction false} LongerThanRoutes(routes: seq<Route>) returns (n: nat)
    ensures n > 0 && forall r :: r in routes ==> |r.host| + |r.path| + 2 < n
    decreases |routes|
  {
    if routes == [] {
      return 1;
    }
    var one := routes[0];
    assert routes == [one] + routes[1..];
    var k := LongerThanRoutes(routes[1..]);
    var size := |one.host| + |one.path| + 3;
    n := if size < k then k else size;
  }

  /** A route whose host is longer than all others fits beside them. */
  lemma LongRouteFits(routes: seq<Route>, z: Route)
    requires Build(routes).Some? && Normalize(z).Some?
    requires forall r :: r in routes ==> |r.host| + |r.path| + 2 < |z.host|
    ensures Build(routes + [z]).Some?
  {
    var all := routes + [z];
    forall r | r in all ensures Normalize(r).Some? {}
    forall i, j | 0 <= i < j < |all| ensures RouteKey(Normalized(all)[i]) != RouteKey(Normalized(all)[j]) {
      assert all[i] == routes[i] && routes[i] in routes;
      if j < |routes| {
        assert Normalized(all)[i] == Normalized(routes)[i] && Normalized(all)[j] == Normalized(routes)[j];
      } else {
        assert |RouteKey(Normalized(all)[i])| < |RouteKey(Normalized(all)[j])|;
      }
    }
  }

  /** An HTTP registration for one host. */
  function Joiner(name: string, port: int, host: string): Request { Request(name, Some(Http), port, [host], "", []) }

  lemma JoinerRoutes(name: string, port: int, n: nat)
    requires n > 0
    ensures RuntimeHTTPRoutes(Joiner(name, port, As(n))) == Some([Route(name, As(n), "/")])
  {
    var host, r := As(n), Joiner(name, port, As(n));
    NoTrim(host);
    NoTrim("/");
    assert Hosts(r) == [host] && Paths(r) == ["/"];
    assert [host][..0] == [] && [host][0] == host;
    assert HostRoutes(name, host, ["/"]) == [Route(name, host, "/")];
    assert AllRoutes(name, [], ["/"]) == [];
    assert AllRoutes(name, [host], ["/"]) == [Route(name, host, "/")];
  }

  /** A name that nobody has and that spells no entry, and a host that fits on a port. */
  lemma Newcomers(t: Tables, port: int) returns (name: string, size: nat)
    requires Build(Merged(t, port)).Some?
    ensures name != "" && name !in t.registry && !LiveName(t.runtime, name) && EntryPort(name) == None && size > 0
    ensures Build(Merged(t, port) + [Route(name, As(size), "/")]).Some? && Build([Route(name, As(size), "/")]).Some?
  {
    var n := LongerThanNames(t.registry + Live(t.runtime));
    name := As(n);
    assert name !in t.registry + Live(t.runtime);
    ColonFreeIsNoEntry(name, 1);
    size := LongerThanRoutes(Merged(t, port));
    LongRouteFits(Merged(t, port), Route(name, As(size), "/"));
    LongRouteFits([], Route(name, As(size), "/"));
    assert [] + [Route(name, As(size), "/")] == [Route(name, As(size), "/")];
  }

  ghost predicate Submap(a: map<string, int>, b: map<string, int>) { forall m :: m in a ==> m in b && a[m] == b[m] }

  lemma IndexOfName(rs: seq<Runtime>, i: nat)
    requires OneNameEach(rs) && i < |rs|
    ensures IndexOf(rs, rs[i].name) == i
  {
    assert rs[i] in rs;
  }

  lemma ClosedKnown(t: Tables, i: nat)
    requires AddressesKnown(t) && OneNameEach(t.runtime) && i < |t.runtime| && t.runtime[i].name != ""
    ensures var u := CloseProxy(t, t.runtime[i].client, t.runtime[i].name);
            && u.runtime == Dropped(t.runtime, i) && u.config == t.config
            && AddressesKnown(u) && Submap(u.guestAddr, t.guestAddr)
  {
    IndexOfName(t.runtime, i);
    RemovedKnown(t, i);
  }

  /** All runtime proxies but one are closed. */
  lemma {:induction false} CloseDown(t: Tables, x: Runtime) returns (w: Tables)
    requires OneNameEach(t.runtime) && x in t.runtime && AddressesKnown(t)
    requires forall r :: r in t.runtime ==> r.name != ""
    ensures w.runtime == [x] && w.config == t.config && AddressesKnown(w) && Submap(w.guestAddr, t.guestAddr)
    ensures !Lasting(w) ==> !Lasting(t)
    decreases |t.runtime|
  {
    var k :| 0 <= k < |t.runtime| && t.runtime[k] == x;
    if |t.runtime| == 1 {
      return t;
    }
    var i := if k == 0 then 1 else 0;
    var y := t.runtime[i];
    var op := Close(y.client, y.name);
    ClosedKnown(t, i);
    DroppedMembers(t.runtime, i);
    var u := Next(t, op);
    w := CloseDown(u, x);
    if !Lasting(u) { BrokenLater(t, op); }
  }

  /** The proxy `x` is alone, nothing is wrong, and no configured proxy has the port its name spells. */
  ghost predicate Alone(w: Tables, x: Runtime) {
    && w.runtime == [x] && Working(w) && AddressesKnown(w) && Canonical(x.name) && !IsStream(x.ptype)
    && (forall b :: b in w.config.http ==> ValidPort(b.port))
  }

  /** Once another proxy uses the entry, closing `x` takes away the entry or its address. */
  lemma ClosingBreaks(v: Tables, x: Runtime, z: Runtime)
    requires v.runtime == [x, z] && z.ptype.Http? && z.entryName == x.name && x.name in v.guestLns
    requires Canonical(x.name) && !IsStream(x.ptype)
    ensures !Working(CloseProxy(v, x.client, x.name))
  {
    hide RoutesBuild, SocketsOwned, AllPlaced, OwnUsed;
    PrefixHasColon(x.name);
    assert Dropped(v.runtime, 0) == [z] && z in [z];
    var w := CloseProxy(v, x.client, x.name);
    if x.ptype.Udp? {
      assert Uses(w.config, w.runtime, x.name) && x.name !in w.guestLns;
    } else {
      assert x.name in w.guestLns && x.name !in w.guestAddr;
    }
  }

  /** An HTTP proxy comes to share the entry, and `x` is closed. */
  lemma SharedThenClosed(w: Tables, x: Runtime, r: Request, pick: Option<nat>, bound: Option<int>)
    requires Alone(w, x) && Possible(w, r, pick, bound) && Safe(w, r, pick) && r.ptype == Some(Http)
    requires NewProxy(w, r, "", 0, pick, bound).1.None? && r.name != x.name
    requires OpenEntry(w, r, pick, bound).name == x.name
    ensures !Lasting(w)
  {
    var op := New(r, "", 0, pick, bound);
    AcceptedIsRegistered(w, r, "", 0, pick, bound);
    var v := Next(w, op);
    IndexOfFresh(w.runtime, r.name);
    var z := v.runtime[1];
    ClosingBreaks(v, x, z);
    BrokenNow(Next(v, Close(x.client, x.name)));
    BrokenLater(v, Close(x.client, x.name));
    BrokenLater(w, op);
  }

  lemma NoRoutes(http: seq<HttpBinding>, x: Runtime, port: int)
    requires (forall b :: b in http ==> ValidPort(b.port)) && !ValidPort(port)
    requires x.ptype.Http? ==> EntryPort(x.entryName) != Some(port)
    ensures PortRoutes(http, port) == [] && RoutesAt([x], port) == []
  {
    assert [x][..0] == [] && RoutesAt([], port) == [];
    NoPortRoutes(http, port);
  }

  lemma {:induction false} NoPortRoutes(http: seq<HttpBinding>, port: int)
    requires forall b :: b in http ==> b.port != port
    ensures PortRoutes(http, port) == []
    decreases |http|
  {
    if http != [] {
      assert http[|http| - 1] in http;
      NoPortRoutes(http[..|http| - 1], port);
    }
  }

  /** An HTTP proxy that has the entry it is named after: another joins it by a negative port. */
  lemma OwnEntryBreaks(w: Tables, x: Runtime)
    requires Alone(w, x) && x.ptype.Http? && x.entryName == x.name
    ensures !Lasting(w)
  {
    var p := EntryPort(x.name).value;
    var name, size := Newcomers(w, p);
    var r, routes := Joiner(name, -65536, As(size)), [Route(name, As(size), "/")];
    JoinerRoutes(name, -65536, size);
    assert x in w.runtime && Placed(w, x);
    NoRoutes(w.config.http, x, -65536);
    assert Merged(w, -65536) + routes == routes;
    IndexOfFresh(w.runtime, name);
    NobodyAtZero(w, name, routes);
    JoinsFirst(w, x, r, routes);
    SharedThenClosed(w, x, r, Some(0), None);
  }

  lemma NobodyAtZero(w: Tables, name: string, routes: seq<Route>)
    requires AddressesKnown(w) && name !in w.registry && Build(Merged(w, -65536) + routes).Some?
    ensures Conflicts(w, name, true, -65536, routes).None?
  {
    assert Port16(-65536) == 0;
  }

  lemma JoinsFirst(w: Tables, x: Runtime, r: Request, routes: seq<Route>)
    requires Alone(w, x) && x.ptype.Http? && x.entryName == x.name && r.ptype == Some(Http) && r.remotePort == -65536
    requires r.name != "" && EntryPort(r.name) == None && !LiveName(w.runtime, r.name)
    requires RuntimeHTTPRoutes(r) == Some(routes) && Conflicts(w, r.name, true, r.remotePort, routes).None?
    requires Build(Merged(w, EntryPort(x.name).value) + routes).Some?
    ensures Possible(w, r, Some(0), None) && Safe(w, r, Some(0)) && r.name != x.name
    ensures NewProxy(w, r, "", 0, Some(0), None).1.None? && OpenEntry(w, r, Some(0), None).name == x.name
  {
    hide Build, Merged, RuntimeHTTPRoutes, Conflicts, RoutesBuild, SocketsOwned;
    assert x in w.runtime && Placed(w, x) && CanPick(w, Some(0)) && Addressed(w);
    IndexOfFresh(w.runtime, r.name);
    assert OpenEntry(w, r, Some(0), None) == Existing(x.name, w.guestLns[x.name]);
    hide OpenEntry, Working, AddressesKnown, Canonical, Addressed;
  }

  /** A proxy named after an entry it does not have: the entry is opened for another. */
  lemma OtherEntryBreaks(w: Tables, x: Runtime)
    requires Alone(w, x) && !Barred(w, x.name) && !(x.ptype.Http? && x.entryName == x.name)
    ensures !Lasting(w)
  {
    var p := EntryPort(x.name).value;
    var name, size := Newcomers(w, p);
    var r, routes := Joiner(name, p, As(size)), [Route(name, As(size), "/")];
    JoinerRoutes(name, p, size);
    NobodyInTheWay(w, x, name, routes);
    var pick := if x.ptype.Http? then Some(0) else None;
    OpensEntry(w, x, r, pick, routes);
    SharedThenClosed(w, x, r, pick, Some(p));
  }

  lemma NobodyInTheWay(w: Tables, x: Runtime, name: string, routes: seq<Route>)
    requires Alone(w, x) && !Barred(w, x.name) && name !in w.registry
    requires Build(Merged(w, EntryPort(x.name).value) + routes).Some?
    ensures Conflicts(w, name, true, EntryPort(x.name).value, routes).None?
  {
    hide Build, Merged, Working, EntryPort;
    var p := EntryPort(x.name).value;
    assert ValidPort(p) && Port16(p) == p;
    ExclusiveElsewhere(w, x, p);
  }

  lemma ExclusiveElsewhere(w: Tables, x: Runtime, p: int)
    requires Alone(w, x) && !Barred(w, x.name) && EntryPort(x.name) == Some(p)
    ensures forall m :: m in w.guestAddr && w.guestAddr[m] == p ==> HTTP_ENTRY_PREFIX <= m || IsHTTPProxyName(w, m)
  {
    hide RoutesBuild, SocketsOwned, SharedUsed, AllPlaced, Located, EntryName;
    forall m | m in w.guestAddr && w.guestAddr[m] == p ensures HTTP_ENTRY_PREFIX <= m || IsHTTPProxyName(w, m) {
      if m in w.guestLns && !Canonical(m) {
        ConfigStreamNamed(w.config, m);
        assert ConfigStream(w.config, m);
      }
    }
  }

  lemma OpensEntry(w: Tables, x: Runtime, r: Request, pick: Option<nat>, routes: seq<Route>)
    requires Alone(w, x) && CanPick(w, pick) && r.ptype == Some(Http) && Some(r.remotePort) == EntryPort(x.name)
    requires r.name != "" && EntryPort(r.name) == None && !LiveName(w.runtime, r.name)
    requires RuntimeHTTPRoutes(r) == Some(routes) && Conflicts(w, r.name, true, r.remotePort, routes).None?
    ensures Possible(w, r, pick, Some(r.remotePort)) && Safe(w, r, pick) && r.name != x.name
    ensures NewProxy(w, r, "", 0, pick, Some(r.remotePort)).1.None?
    ensures OpenEntry(w, r, pick, Some(r.remotePort)).name == x.name
  {
    AloneIsAddressed(w, x);
    PortIsItself(r.remotePort);
    hide *;
    FreshIsSafe(w, x, r, pick);
    EntryIsFound(w, r, pick, Some(r.remotePort), routes);
  }

  lemma AloneIsAddressed(w: Tables, x: Runtime)
    requires Alone(w, x)
    ensures Addressed(w) && w.runtime == [x] && x in w.runtime
    ensures EntryPort(x.name).Some? && ValidPort(EntryPort(x.name).value)
    ensures EntryName(EntryPort(x.name).value) == x.name
  {}

  lemma PortIsItself(p: int)
    requires ValidPort(p)
    ensures Port16(p) == p && MIN_INT <= p <= MAX_INT
  {}

  lemma FreshIsSafe(w: Tables, x: Runtime, r: Request, pick: Option<nat>)
    requires w.runtime == [x] && CanPick(w, pick) && r.ptype == Some(Http) && ValidPort(r.remotePort)
    requires EntryPort(r.name) == None && !LiveName(w.runtime, r.name)
    ensures Safe(w, r, pick)
  {
    hide EntryPort, RoutesFit;
  }

  lemma EntryIsFound(w: Tables, r: Request, pick: Option<nat>, bound: Option<int>, routes: seq<Route>)
    requires Addressed(w) && CanPick(w, pick) && r.ptype == Some(Http) && ValidPort(r.remotePort) && r.name != ""
    requires bound == Some(r.remotePort) && RuntimeHTTPRoutes(r) == Some(routes)
    requires Conflicts(w, r.name, true, r.remotePort, routes).None?
    ensures NewProxy(w, r, "", 0, pick, bound).1.None? && OpenEntry(w, r, pick, bound).name == EntryName(r.remotePort)
  {
    hide RuntimeHTTPRoutes, Conflicts, EntryName, Registered;
  }

  /** A proxy that is not a stream and whose name spells an entry does harm, if it has that entry or the
      entry can be opened. */
  lemma EntryNameHarms(u: Tables, x: Runtime)
    requires OneNameEach(u.runtime) && x in u.runtime && AddressesKnown(u)
    requires (forall r :: r in u.runtime ==> r.name != "") && forall b :: b in u.config.http ==> ValidPort(b.port)
    requires Canonical(x.name) && !IsStream(x.ptype)
    requires (x.ptype.Http? && x.entryName == x.name) || !Barred(u, x.name)
    ensures !Lasting(u)
  {
    var w := CloseDown(u, x);
    if !Working(w) {
      BrokenNow(w);
    } else if x.ptype.Http? && x.entryName == x.name {
      OwnEntryBreaks(w, x);
    } else {
      assert !Barred(w, x.name);
      OtherEntryBreaks(w, x);
    }
  }

  lemma NamedAfterEntry(t: Tables, r: Request, client: string, conn: nat, pick: Option<nat>, bound: Option<int>)
    requires Sound(t) && Possible(t, r, pick, bound) && NewProxy(t, r, client, conn, pick, bound).1.None?
    requires Canonical(r.name) && !IsStream(r.ptype.value)
    requires !Barred(t, r.name) || (r.ptype.value.Http? && OpenEntry(t, r, pick, bound).name == r.name)
    ensures !Lasting(NewProxy(t, r, client, conn, pick, bound).0)
  {
    AcceptedIsRegistered(t, r, client, conn, pick, bound);
    var e, routes := OpenEntry(t, r, pick, bound), RuntimeHTTPRoutes(r).value;
    var u := NewProxy(t, r, client, conn, pick, bound).0;
    if r.ptype.value.Http? { EntryHasColon(t, r, pick, bound); }
    RegisteredBars(t, r, client, conn, e, routes);
    RegisteredKnown(t, r, client, conn, e, routes);
    RegisteredNames(t, r, client, conn, e, routes);
    EntryNameHarms(u, u.runtime[|u.runtime| - 1]);
  }

  lemma EntryHasColon(t: Tables, r: Request, pick: Option<nat>, bound: Option<int>)
    requires AllPlaced(t) && CanPick(t, pick) && r.ptype == Some(Http) && !OpenEntry(t, r, pick, bound).Unavailable?
    ensures OpenEntry(t, r, pick, bound).name == r.name || ':' in OpenEntry(t, r, pick, bound).name
  {
    var n := OpenEntry(t, r, pick, bound).name;
    if pick.Some? { assert t.runtime[pick.value] in t.runtime && Placed(t, t.runtime[pick.value]); }
    if HTTP_ENTRY_PREFIX <= n { PrefixHasColon(n); }
  }

  lemma RegisteredNames(t: Tables, r: Request, client: string, conn: nat, e: Entry, routes: seq<Route>)
    requires ProxyNamesApart(t) && Addressed(t) && r.ptype.Some? && !e.Unavailable? && r.name != ""
    requires e.Existing? ==> e.name in t.guestLns
    ensures var u := Registered(t, r, client, conn, e, routes);
            var x := u.runtime[|u.runtime| - 1];
            && OneNameEach(u.runtime) && x in u.runtime && u.config == t.config
            && x.name == r.name && Some(x.ptype) == r.ptype && x.entryName == e.name
            && forall q :: q in u.runtime ==> q.name != ""
  {
    hide OneNameEach, Put;
    var u := Registered(t, r, client, conn, e, routes);
    var x :| u.runtime == Put(t.runtime, x) && x.name == r.name && Some(x.ptype) == r.ptype && x.entryName == e.name;
    PutNames(t.runtime, x);
  }

  lemma PutNames(rs: seq<Runtime>, x: Runtime)
    requires OneNameEach(rs)
    ensures var all := Put(rs, x);
            && OneNameEach(all) && all != [] && all[|all| - 1] == x
            && forall q :: q in all ==> q == x || q in rs
  {
    OthersMembers(rs, x.name);
    var all, rest := Put(rs, x), Others(rs, x.name);
    forall i, j | 0 <= i < j < |all| ensures all[i].name != all[j].name {
      assert all[i] == rest[i] && rest[i] in rest;
      if j < |rest| { assert all[j] == rest[j]; }
    }
  }

  /** Every clause of safety matters: without it, what a registration leaves is not in order, or safe
      steps can bring disorder. */
  lemma UnsafeBreaks(t: Tables, r: Request, client: string, conn: nat, pick: Option<nat>, bound: Option<int>)
    requires Sound(t) && Possible(t, r, pick, bound) && !Safe(t, r, pick)
    requires NewProxy(t, r, client, conn, pick, bound).1.None?
    ensures !Lasting(NewProxy(t, r, client, conn, pick, bound).0)
  {
    var u := NewProxy(t, r, client, conn, pick, bound).0;
    if !NameFits(t, r.name, r.ptype.value) {
      if IsStream(r.ptype.value) {
        EntryNameTaken(t, r, client, conn, pick, bound);
        BrokenNow(u);
      } else {
        NamedAfterEntry(t, r, client, conn, pick, bound);
      }
    } else if PortFits(t, r, pick) {
      var q :| q in t.runtime && q.name == r.name && !Replaceable(t, r, pick, q);
      TakenNameLeaks(t, r, client, conn, pick, bound, q);
      OwnerlessBreaks(u, q.socket);
      BrokenNow(u);
    } else {
      PortBreaks(t, r, client, conn, pick, bound);
    }
  }

  lemma PortBreaks(t: Tables, r: Request, client: string, conn: nat, pick: Option<nat>, bound: Option<int>)
    requires Sound(t) && Possible(t, r, pick, bound) && !PortFits(t, r, pick)
    requires NewProxy(t, r, client, conn, pick, bound).1.None?
    ensures !Lasting(NewProxy(t, r, client, conn, pick, bound).0)
  {
    var u := NewProxy(t, r, client, conn, pick, bound).0;
    if r.remotePort > MAX_PORT {
      HighPortMisplaced(t, r, client, conn, pick, bound);
      BrokenNow(u);
    } else if pick.Some? {
      NegativePortUnchecked(t, r, client, conn, pick.value, bound);
      BrokenNow(u);
    } else if Canonical(r.name) {
      NamedAfterEntry(t, r, client, conn, pick, bound);
    } else {
      NegativePortUnplaced(t, r, client, conn, bound);
      BrokenNow(u);
    }
  }

  /** A registration that is refused changes nothing; after one that is accepted all is in order for
      good if and only if it was safe, which is not checked. */
  lemma NewProxyLasts(t: Tables, r: Request, client: string, conn: nat, pick: Option<nat>, bound: Option<int>)
    requires Sound(t) && Possible(t, r, pick, bound)
    ensures var (u, refused) := NewProxy(t, r, client, conn, pick, bound);
            Lasting(u) <==> refused.Some? || Safe(t, r, pick)
  {
    var (u, refused) := NewProxy(t, r, client, conn, pick, bound);
    if refused.Some? {
      RefusedKeeps(t, r, client, conn, pick, bound);
      SoundLasts(u);
    } else if Safe(t, r, pick) {
      SafeKeeps(t, r, client, conn, pick, bound);
      SoundLasts(u);
    } else {
      UnsafeBreaks(t, r, client, conn, pick, bound);
    }
  }

  /** At every moment of the run all is in order for good. */
  ghost predicate AlwaysLasting(t: Tables, ops: seq<Op>)
    decreases |ops|
  {
    Lasting(t) && (ops != [] ==> CanHappen(t, ops[0]) && AlwaysLasting(Next(t, ops[0]), ops[1..]))
  }

  /** In every run all is always in order for good if and only if every registration accepted is safe. */
  lemma {:induction false} RunLasts(t: Tables, ops: seq<Op>, u: Tables)
    requires Sound(t) && Reaches(t, ops, u)
    ensures AlwaysLasting(t, ops) <==> AllSafe(t, ops)
    decreases |ops|
  {
    SoundLasts(t);
    if ops != [] {
      var op := ops[0];
      if Accepted(t, op) { NewProxyLasts(t, op.request, op.client, op.conn, op.pick, op.bound); }
      if Accepted(t, op) ==> Safe(t, op.request, op.pick) {
        NextSound(t, op);
        RunLasts(Next(t, op), ops[1..], u);
      }
    }
  }

  // A socket without a proxy.

  /** No proxy has the socket, and no HTTP proxy the entry it may still stand under. */
  ghost predicate Loose(t: Tables, s: Socket) {
    && OneNameEach(t.runtime) && (forall r :: r in t.runtime ==> r.name != "") && s in t.open && s < t.next
    && (forall r :: r in t.runtime ==> r.socket != s)
    && (forall n, r :: n in t.guestLns && t.guestLns[n] == s && r in t.runtime && r.ptype.Http? ==> r.entryName != n)
  }

  /** An HTTP registration comes to an entry with that socket. */
  ghost predicate Takes(t: Tables, op: Op, s: Socket)
    requires CanHappen(t, op)
  {
    && Accepted(t, op) && op.request.ptype == Some(Http)
    && var n := OpenEntry(t, op.request, op.pick, op.bound).name; n in t.guestLns && t.guestLns[n] == s
  }

  lemma LooseRemoved(t: Tables, i: nat, s: Socket)
    requires Loose(t, s) && i < |t.runtime|
    ensures Loose(Removed(t, i), s)
  {
    DroppedMembers(t.runtime, i);
  }

  lemma {:induction false} LooseAllRemoved(t: Tables, conn: nat, s: Socket)
    requires Loose(t, s)
    ensures Loose(AllRemoved(t, conn), s)
    decreases |t.runtime|
  {
    var i := FirstOf(t.runtime, conn);
    if i < |t.runtime| {
      LooseRemoved(t, i, s);
      LooseAllRemoved(Removed(t, i), conn, s);
    }
  }

  lemma LooseRegistered(t: Tables, r: Request, client: string, conn: nat, e: Entry, routes: seq<Route>, s: Socket)
    requires Loose(t, s) && Addressed(t) && r.ptype.Some? && !e.Unavailable? && r.name != ""
    requires e.Existing? ==> e.name in t.guestLns && t.guestLns[e.name] == e.socket && r.ptype.value.Http?
    requires r.ptype.value.Http? && e.name in t.guestLns ==> t.guestLns[e.name] != s
    ensures Loose(Registered(t, r, client, conn, e, routes), s)
  {
    hide OneNameEach, Put;
    var u := Registered(t, r, client, conn, e, routes);
    PutNames(t.runtime, Newcomer(t, r, client, conn, e, routes));
    assert u.runtime == Put(t.runtime, Newcomer(t, r, client, conn, e, routes));
  }

  lemma LooseStep(t: Tables, op: Op, s: Socket)
    requires Loose(t, s) && CanHappen(t, op) && !Takes(t, op, s)
    ensures Loose(Next(t, op), s)
  {
    match op
    case New(r, client, conn, pick, bound) =>
      if Accepted(t, op) {
        AcceptedIsRegistered(t, r, client, conn, pick, bound);
        LooseRegistered(t, r, client, conn, OpenEntry(t, r, pick, bound), RuntimeHTTPRoutes(r).value, s);
      } else {
        RefusedIsSame(t, r, client, conn, pick, bound);
      }
    case Close(_, name) =>
      var i := IndexOf(t.runtime, name);
      if i < |t.runtime| { LooseRemoved(t, i, s); }
    case End(conn) => LooseAllRemoved(t, conn, s);
  }

  /** In a run in which no HTTP registration takes its entry, the socket stays open. */
  ghost predicate NobodyTakes(t: Tables, ops: seq<Op>, s: Socket)
    decreases |ops|
  {
    ops != [] ==> CanHappen(t, ops[0]) && !Takes(t, ops[0], s) && NobodyTakes(Next(t, ops[0]), ops[1..], s)
  }

  lemma {:induction false} LooseRun(t: Tables, ops: seq<Op>, u: Tables, s: Socket)
    requires Loose(t, s) && Reaches(t, ops, u) && NobodyTakes(t, ops, s)
    ensures Loose(u, s)
    decreases |ops|
  {
    if ops != [] {
      LooseStep(t, ops[0], s);
      LooseRun(Next(t, ops[0]), ops[1..], u, s);
    }
  }

  /** A socket under no entry at all can never be taken, so it stays open whatever happens. */
  lemma {:induction false} OffTheTable(t: Tables, ops: seq<Op>, u: Tables, s: Socket)
    requires Loose(t, s) && s !in t.guestLns.Values && Reaches(t, ops, u)
    ensures Loose(u, s) && s !in u.guestLns.Values
    decreases |ops|
  {
    if ops != [] {
      assert !Takes(t, ops[0], s);
      LooseStep(t, ops[0], s);
      StaysOff(t, ops[0], s);
      OffTheTable(Next(t, ops[0]), ops[1..], u, s);
    }
  }

  lemma StaysOff(t: Tables, op: Op, s: Socket)
    requires CanHappen(t, op) && s !in t.guestLns.Values && s < t.next
    ensures s !in Next(t, op).guestLns.Values
  {
    match op
    case New(r, client, conn, pick, bound) =>
      if Accepted(t, op) {
        AcceptedIsRegistered(t, r, client, conn, pick, bound);
      } else {
        RefusedIsSame(t, r, client, conn, pick, bound);
      }
    case Close(_, _) =>
    case End(conn) => AllRemovedShrinks(t, conn);
  }

  /** Ends of sessions only take entries away. */
  lemma {:induction false} AllRemovedShrinks(t: Tables, conn: nat)
    ensures forall n :: n in AllRemoved(t, conn).guestLns ==>
                          n in t.guestLns && AllRemoved(t, conn).guestLns[n] == t.guestLns[n]
    decreases |t.runtime|
  {
    var i := FirstOf(t.runtime, conn);
    if i < |t.runtime| { AllRemovedShrinks(Removed(t, i), conn); }
  }

  /** The entries with that socket are of no configured HTTP port. */
  ghost predicate NotConfigured(t: Tables, s: Socket) {
    forall n, b :: n in t.guestLns && t.guestLns[n] == s && b in t.config.http ==> EntryPort(n) != Some(b.port)
  }

  lemma NotConfiguredStep(t: Tables, op: Op, s: Socket)
    requires CanHappen(t, op) && NotConfigured(t, s) && s < t.next
    requires !Takes(t, op, s)
    ensures NotConfigured(Next(t, op), s)
  {
    match op
    case New(r, client, conn, pick, bound) =>
      if Accepted(t, op) {
        AcceptedIsRegistered(t, r, client, conn, pick, bound);
      } else {
        RefusedIsSame(t, r, client, conn, pick, bound);
      }
    case Close(_, _) =>
    case End(conn) =>
      AllRemovedShrinks(t, conn);
      AllRemovedKeeps(t, conn);
  }

  /** Whoever takes the entry is its only user, and closing it closes the socket. */
  lemma TakenThenClosed(t: Tables, op: Op, s: Socket)
    requires Loose(t, s) && NotConfigured(t, s) && CanHappen(t, op) && Takes(t, op, s)
    ensures s !in Next(Next(t, op), Close(op.client, op.request.name)).open
  {
    var r := op.request;
    AcceptedIsRegistered(t, r, op.client, op.conn, op.pick, op.bound);
    var e, routes := OpenEntry(t, r, op.pick, op.bound), RuntimeHTTPRoutes(r).value;
    var z, v := Newcomer(t, r, op.client, op.conn, e, routes), Next(t, op);
    assert v.runtime == Put(t.runtime, z) && z.socket == s && z.entryName == e.name;
    ClosingLast(t, v, z, s);
  }

  lemma ClosingLast(t: Tables, v: Tables, z: Runtime, s: Socket)
    requires Loose(t, s) && NotConfigured(t, s) && v.config == t.config && v.runtime == Put(t.runtime, z)
    requires z.name != "" && z.ptype.Http? && z.socket == s && z.entryName in t.guestLns && t.guestLns[z.entryName] == s
    ensures s !in CloseProxy(v, z.client, z.name).open
  {
    PutNames(t.runtime, z);
    OthersMembers(t.runtime, z.name);
    var rest := Others(t.runtime, z.name);
    IndexOfName(v.runtime, |rest|);
    assert Dropped(v.runtime, |rest|) == rest;
    assert !HasUsers(v.config, rest, z.entryName);
  }

  lemma {:induction false} ReachesMore(t: Tables, ops: seq<Op>, u: Tables, op: Op)
    requires Reaches(t, ops, u) && CanHappen(u, op)
    ensures Reaches(t, ops + [op], Next(u, op))
    decreases |ops|
  {
    if ops == [] {
      assert ops + [op] == [op] && [op][1..] == [];
    } else {
      ReachesMore(Next(t, ops[0]), ops[1..], u, op);
      assert (ops + [op])[1..] == ops[1..] + [op];
    }
  }

  ghost predicate CanBeTaken(t: Tables, s: Socket) {
    exists ops: seq<Op>, u: Tables, op: Op :: Reaches(t, ops, u) && CanHappen(u, op) && Takes(u, op, s)
  }

  ghost predicate CanBeClosed(t: Tables, s: Socket) {
    exists ops: seq<Op>, u: Tables :: Reaches(t, ops, u) && s !in u.open
  }

  /** The first time the entry is taken. */
  lemma {:induction false} FirstTaken(t: Tables, ops: seq<Op>, u: Tables, s: Socket)
    returns (some: seq<Op>, w: Tables, op: Op)
    requires Loose(t, s) && NotConfigured(t, s) && Reaches(t, ops, u) && !NobodyTakes(t, ops, s)
    ensures Reaches(t, some, w) && CanHappen(w, op) && Takes(w, op, s) && op.New? && Loose(w, s) && NotConfigured(w, s)
    decreases |ops|
  {
    if Takes(t, ops[0], s) {
      return [], t, ops[0];
    }
    LooseStep(t, ops[0], s);
    NotConfiguredStep(t, ops[0], s);
    some, w, op := FirstTaken(Next(t, ops[0]), ops[1..], u, s);
    assert ([ops[0]] + some)[1..] == some;
    some := [ops[0]] + some;
  }

  /** Such a socket can ever be closed if and only if some HTTP registration can take its entry. */
  lemma ClosedIffTaken(t: Tables, s: Socket)
    requires Loose(t, s) && NotConfigured(t, s)
    ensures CanBeClosed(t, s) <==> CanBeTaken(t, s)
  {
    if CanBeClosed(t, s) { ClosedWasTaken(t, s); }
    if CanBeTaken(t, s) { TakenCanClose(t, s); }
  }

  lemma ClosedWasTaken(t: Tables, s: Socket)
    requires Loose(t, s) && NotConfigured(t, s) && CanBeClosed(t, s)
    ensures CanBeTaken(t, s)
  {
    hide Takes, Next, NobodyTakes, NotConfigured;
    var ops: seq<Op>, u: Tables :| Reaches(t, ops, u) && s !in u.open;
    if NobodyTakes(t, ops, s) { LooseRun(t, ops, u, s); }
    var some, w, op := FirstTaken(t, ops, u, s);
  }

  lemma TakenCanClose(t: Tables, s: Socket)
    requires Loose(t, s) && NotConfigured(t, s) && CanBeTaken(t, s)
    ensures CanBeClosed(t, s)
  {
    hide Takes, Next, Loose, NotConfigured;
    var ops: seq<Op>, u: Tables, op: Op :| Reaches(t, ops, u) && CanHappen(u, op) && Takes(u, op, s);
    var some, w, first := TakenOnce(t, ops, u, op, s);
    var v, close := Next(w, first), Close(first.client, first.request.name);
    TakenThenClosed(w, first, s);
    ReachesMore(t, some, w, first);
    ReachesMore(t, some + [first], v, close);
    assert Reaches(t, some + [first] + [close], Next(v, close));
  }

  lemma TakenOnce(t: Tables, ops: seq<Op>, u: Tables, last: Op, s: Socket)
    returns (some: seq<Op>, w: Tables, op: Op)
    requires Loose(t, s) && NotConfigured(t, s) && Reaches(t, ops, u) && CanHappen(u, last) && Takes(u, last, s)
    ensures Reaches(t, some, w) && CanHappen(w, op) && Takes(w, op, s) && op.New? && Loose(w, s) && NotConfigured(w, s)
  {
    ReachesMore(t, ops, u, last);
    EndsTaken(t, ops, u, last, s);
    some, w, op := FirstTaken(t, ops + [last], Next(u, last), s);
  }

  lemma {:induction false} EndsTaken(t: Tables, ops: seq<Op>, u: Tables, last: Op, s: Socket)
    requires Reaches(t, ops, u) && CanHappen(u, last) && Takes(u, last, s)
    ensures !NobodyTakes(t, ops + [last], s)
    decreases |ops|
  {
    if ops == [] {
      assert (ops + [last])[0] == last;
    } else {
      EndsTaken(Next(t, ops[0]), ops[1..], u, last, s);
      assert (ops + [last])[1..] == ops[1..] + [last] && (ops + [last])[0] == ops[0];
    }
  }

  // What becomes of a replaced proxy's socket.

  /** Entries with that socket are not shared ones. */
  ghost predicate NotShared(t: Tables, s: Socket) {
    forall n :: n in t.guestLns && t.guestLns[n] == s ==> !Canonical(n)
  }

  lemma ReplacedIsLoose(t: Tables, u: Tables, x: Runtime, q: Runtime)
    requires Sound(t) && q in t.runtime && q.name == x.name && Entered(Without(t, x.name), u, x)
    requires NameFits(t, x.name, x.ptype)
    requires q.ptype.Http? ==> !Uses(t.config, Others(t.runtime, x.name), q.entryName)
    requires q.ptype.Http? && x.ptype.Http? ==> x.entryName != q.entryName
    ensures Loose(u, q.socket)
    ensures if q.ptype.Http? then NotConfigured(u, q.socket) else NotShared(u, q.socket)
    ensures q.ptype.Udp? || (IsStream(q.ptype) && IsStream(x.ptype)) ==> q.socket !in u.guestLns.Values
  {
    ReplacedLeaks(t, u, x, q);
    NoOtherOwner(t, u, x, q);
    PutNames(t.runtime, x);
    assert u.runtime == Put(t.runtime, x);
    hide Build, RoutesBuild, Merged, Barred, Others, OneNameEach, SharedUsed, OwnUsed;
    assert Placed(t, q);
  }

  /** A registration that takes the place of a live proxy that is not replaceable. */
  ghost predicate Replaces(t: Tables, op: Op, q: Runtime)
    requires CanHappen(t, op)
  {
    && Accepted(t, op) && q in t.runtime && q.name == op.request.name
    && PortFits(t, op.request, op.pick) && NameFits(t, op.request.name, op.request.ptype.value)
    && !Replaceable(t, op.request, op.pick, q)
  }

  lemma AfterReplacing(t: Tables, op: Op, q: Runtime)
    requires Sound(t) && CanHappen(t, op) && Replaces(t, op, q)
    ensures var u, s := Next(t, op), q.socket;
            && Loose(u, s) && (if q.ptype.Http? then NotConfigured(u, s) else NotShared(u, s))
            && (q.ptype.Udp? || (IsStream(q.ptype) && IsStream(op.request.ptype.value)) ==> s !in u.guestLns.Values)
  {
    var r := op.request;
    AcceptedFits(t, r, op.client, op.conn, op.pick, op.bound);
    AcceptedIsRegistered(t, r, op.client, op.conn, op.pick, op.bound);
    var e, routes := OpenEntry(t, r, op.pick, op.bound), RuntimeHTTPRoutes(r).value;
    var base, x := Without(t, r.name), Newcomer(Without(t, r.name), r, op.client, op.conn, e, routes);
    WithoutNames(t, r.name);
    RegisteredReplaces(t, r, op.client, op.conn, e, routes);
    RegisteredEnters(base, r, op.client, op.conn, e, routes);
    if x.ptype.Http? && q.ptype.Http? {
      assert r.remotePort > 0 || op.pick.Some?;
      assert x.entryName == EntryKey(t, r, op.pick) != q.entryName;
    }
    ReplacedIsLoose(t, Next(t, op), x, q);
  }

  /** HTTP registrations of the run ask for a port, or share the entry of another. */
  ghost predicate ProperPorts(ops: seq<Op>) {
    forall i :: 0 <= i < |ops| && ops[i].New? && ops[i].request.ptype == Some(Http) ==>
      ops[i].request.remotePort <= MAX_PORT && (ops[i].request.remotePort < 0 ==> ops[i].pick.Some?)
  }

  lemma ProperTakesShared(t: Tables, op: Op, s: Socket)
    requires Loose(t, s) && NotShared(t, s) && CanHappen(t, op) && ProperPorts([op])
    ensures !Takes(t, op, s)
  {
    hide NewProxy, OpenEntry, Loose, NotShared;
    assert [op][0] == op;
    if Accepted(t, op) && op.request.ptype == Some(Http) {
      AcceptedIsRegistered(t, op.request, op.client, op.conn, op.pick, op.bound);
      ProperEntry(t, op.request, op.pick, op.bound, s);
    }
  }

  lemma ProperEntry(t: Tables, r: Request, pick: Option<nat>, bound: Option<int>, s: Socket)
    requires Loose(t, s) && NotShared(t, s) && Possible(t, r, pick, bound) && r.ptype == Some(Http)
    requires r.remotePort <= MAX_PORT && (r.remotePort < 0 ==> pick.Some?) && !OpenEntry(t, r, pick, bound).Unavailable?
    ensures var n := OpenEntry(t, r, pick, bound).name; n in t.guestLns ==> t.guestLns[n] != s
  {
    if r.remotePort > 0 { PortIsCanonical(r.remotePort); }
    if bound.Some? { PortIsCanonical(bound.value); }
    if pick.Some? { assert t.runtime[pick.value] in t.runtime; }
  }

  lemma NotSharedStep(t: Tables, op: Op, s: Socket)
    requires CanHappen(t, op) && NotShared(t, s) && s < t.next && !Takes(t, op, s)
    ensures NotShared(Next(t, op), s)
  {
    match op
    case New(r, client, conn, pick, bound) =>
      hide NewProxy;
      if Accepted(t, op) { NewNotShared(t, op, s); } else { RefusedIsSame(t, r, client, conn, pick, bound); }
    case Close(_, _) =>
    case End(conn) => AllRemovedShrinks(t, conn);
  }

  lemma NewNotShared(t: Tables, op: Op, s: Socket)
    requires CanHappen(t, op) && op.New? && Accepted(t, op) && NotShared(t, s) && s < t.next && !Takes(t, op, s)
    ensures NotShared(Next(t, op), s)
  {
    hide NewProxy;
    AcceptedIsRegistered(t, op.request, op.client, op.conn, op.pick, op.bound);
  }

  lemma {:induction false} NeverTaken(t: Tables, ops: seq<Op>, u: Tables, s: Socket)
    requires Loose(t, s) && NotShared(t, s) && Reaches(t, ops, u) && ProperPorts(ops)
    ensures Loose(u, s)
    decreases |ops|
  {
    if ops != [] {
      assert ProperPorts([ops[0]]) && ProperPorts(ops[1..]);
      ProperTakesShared(t, ops[0], s);
      LooseStep(t, ops[0], s);
      NotSharedStep(t, ops[0], s);
      NeverTaken(Next(t, ops[0]), ops[1..], u, s);
    }
  }

  /** The socket of a replaced UDP proxy, and of a stream proxy replaced by another, stays open in every
      continuation. So does that of a stream proxy replaced by a proxy of another kind, as long as HTTP
      registrations ask for ports that are ports. */
  lemma ReplacedStaysOpen(t: Tables, op: Op, q: Runtime, ops: seq<Op>, w: Tables)
    requires Sound(t) && CanHappen(t, op) && Replaces(t, op, q) && !q.ptype.Http? && Reaches(Next(t, op), ops, w)
    requires q.ptype.Udp? || IsStream(op.request.ptype.value) || ProperPorts(ops)
    ensures q.socket in w.open
  {
    var u := Next(t, op);
    AfterReplacing(t, op, q);
    if q.socket !in u.guestLns.Values {
      OffTheTable(u, ops, w, q.socket);
    } else {
      NeverTaken(u, ops, w, q.socket);
    }
  }

  /** The socket of a replaced HTTP proxy's entry stays open until an HTTP registration takes the entry,
      and can be closed if and only if one can. */
  lemma ReplacedEntryStaysOpen(t: Tables, op: Op, q: Runtime)
    requires Sound(t) && CanHappen(t, op) && Replaces(t, op, q) && q.ptype.Http?
    ensures CanBeClosed(Next(t, op), q.socket) <==> CanBeTaken(Next(t, op), q.socket)
    ensures forall ops: seq<Op>, w: Tables ::
              Reaches(Next(t, op), ops, w) && NobodyTakes(Next(t, op), ops, q.socket) ==> q.socket in w.open
  {
    var u := Next(t, op);
    AfterReplacing(t, op, q);
    ClosedIffTaken(u, q.socket);
    forall ops: seq<Op>, w: Tables | Reaches(u, ops, w) && NobodyTakes(u, ops, q.socket) ensures q.socket in w.open {
      LooseRun(u, ops, w, q.socket);
    }
  }

  // The registry.

  predicate Complete(t: Tables) { forall r :: r in t.runtime ==> r.name in t.registry }

  /** While the registry is complete, the check of the name finds every live proxy. */
  lemma CompleteGuards(t: Tables, r: Request, client: string, conn: nat, pick: Option<nat>, bound: Option<int>)
    requires Complete(t) && CanPick(t, pick) && Addressed(t)
    requires NewProxy(t, r, client, conn, pick, bound).1.None?
    ensures forall q :: q in t.runtime ==> q.name != r.name
    ensures Complete(NewProxy(t, r, client, conn, pick, bound).0)
  {
    AcceptedIsRegistered(t, r, client, conn, pick, bound);
    IndexOfFresh(t.runtime, r.name);
  }

  lemma CloseComplete(t: Tables, client: string, name: string)
    requires Complete(t) && OneNameEach(t.runtime)
    ensures Complete(CloseProxy(t, client, name))
  {
    var i := IndexOf(t.runtime, name);
    if i < |t.runtime| { DroppedMembers(t.runtime, i); }
  }

  /** The session has no proxies, or the others have none. */
  predicate EndsAlone(t: Tables, conn: nat) {
    (forall r :: r in t.runtime ==> r.conn != conn) || (forall r :: r in t.runtime ==> r.conn == conn)
  }

  /** The end of a session makes the registry forget exactly the proxies of the other sessions: it
      stays complete only if the session had no proxies or the others have none. */
  lemma CleanupForgets(t: Tables, conn: nat)
    requires Complete(t) && OneNameEach(t.runtime)
    ensures Complete(Cleanup(t, conn)) <==> EndsAlone(t, conn)
  {
    AllRemovedLeaves(t, conn);
    var u := Cleanup(t, conn);
    if FirstOf(t.runtime, conn) < |t.runtime| {
      assert t.runtime[FirstOf(t.runtime, conn)] in t.runtime;
      forall r | r in u.runtime ensures r.name !in u.registry {
        assert r.name in Live(u.runtime);
      }
    }
  }

  /** Sessions with proxies end one at a time, and registrations keep to names and HTTP ports that are
      what they should be. Of the names of live proxies nothing is said. */
  ghost predicate Orderly(t: Tables, op: Op) {
    match op
    case New(r, _, _, _, _) => !Canonical(r.name) && (r.ptype == Some(Http) ==> 0 <= r.remotePort <= MAX_PORT)
    case Close(_, _) => true
    case End(conn) => EndsAlone(t, conn)
  }

  ghost predicate AllOrderly(t: Tables, ops: seq<Op>)
    decreases |ops|
  {
    ops != [] ==> CanHappen(t, ops[0]) && Orderly(t, ops[0]) && AllOrderly(Next(t, ops[0]), ops[1..])
  }

  lemma OrderlyStep(t: Tables, op: Op)
    requires Sound(t) && Complete(t) && CanHappen(t, op) && Orderly(t, op)
    ensures Sound(Next(t, op)) && Complete(Next(t, op)) && (Accepted(t, op) ==> Safe(t, op.request, op.pick))
  {
    match op
    case New(r, client, conn, pick, bound) =>
      if Accepted(t, op) {
        CompleteGuards(t, r, client, conn, pick, bound);
        AcceptedIsRegistered(t, r, client, conn, pick, bound);
      } else {
        RefusedIsSame(t, r, client, conn, pick, bound);
      }
      NextSound(t, op);
    case Close(client, name) =>
      CloseComplete(t, client, name);
      NextSound(t, op);
    case End(conn) =>
      CleanupForgets(t, conn);
      NextSound(t, op);
  }

  /** As long as no session that has proxies ends while another has some, the program's own check of
      the name is enough. */
  lemma {:induction false} OrderlyRunLasts(t: Tables, ops: seq<Op>, u: Tables)
    requires Sound(t) && Complete(t) && Reaches(t, ops, u) && AllOrderly(t, ops)
    ensures Sound(u) && Complete(u) && AlwaysLasting(t, ops)
    decreases |ops|
  {
    SoundLasts(t);
    if ops != [] {
      OrderlyStep(t, ops[0]);
      OrderlyRunLasts(Next(t, ops[0]), ops[1..], u);
    }
  }
}
