/** Proxies that clients register while the server runs, and the HTTP entries they share. */
module RuntimeProxies {
  import opened Wrappers
  import opened EntryNames
  import opened Routing
  import opened Validation

  type Socket = nat

  datatype ProxyType = Tcp | Udp | Http | Https

  datatype Runtime = Runtime(name: string, client: string, conn: nat, ptype: ProxyType,
                             entryName: string, socket: Socket, routes: seq<Route>)

  /** The tables of one generation. `guestLns` holds the stream entries, of the configuration and of
      runtime proxies; a UDP proxy keeps its own socket. `open` is every entry socket not yet
      released. `runtime` is a table by name; its order stands for whatever order the map is walked in. */
  datatype Tables = Tables(config: ServerConfig, runtime: seq<Runtime>, guestLns: map<string, Socket>,
                           guestAddr: map<string, int>, registry: set<string>, open: set<Socket>, next: Socket)

  datatype Request = Request(name: string, ptype: Option<ProxyType>, remotePort: int,
                             domains: seq<string>, subdomain: string, locations: seq<string>)

  datatype Rejection = FieldInvalid | TypeUnsupported | NameConflict | PortConflict

  /** The sixteen bits of a port that reach the operating system. */
  function Port16(port: int): int { port % 0x1_0000 }

  // Routes.

  function CleanPath(path: string): string { if Trim(path) == "" then "/" else Trim(path) }

  function HostRoutes(name: string, host: string, paths: seq<string>): seq<Route> {
    seq(|paths|, i requires 0 <= i < |paths| => Route(name, Trim(host), CleanPath(paths[i])))
  }

  function AllRoutes(name: string, hosts: seq<string>, paths: seq<string>): seq<Route> {
    if hosts == [] then []
    else AllRoutes(name, hosts[..|hosts| - 1], paths) + HostRoutes(name, hosts[|hosts| - 1], paths)
  }

  function Hosts(r: Request): seq<string> { r.domains + if r.subdomain != "" then [r.subdomain] else [] }

  function Paths(r: Request): seq<string> { if r.locations == [] then ["/"] else r.locations }

  /** The routes of a registration; none for a proxy that is not HTTP. */
  function RuntimeHTTPRoutes(r: Request): Option<seq<Route>> {
    if r.ptype != Some(Http) then Some([])
    else if Hosts(r) == [] then None
    else if exists h :: h in Hosts(r) && Trim(h) == "" then None
    else if exists p :: p in Paths(r) && CleanPath(p)[0] != '/' then None
    else Some(AllRoutes(r.name, Hosts(r), Paths(r)))
  }

  /** The routes that runtime proxies add to a port. */
  function RoutesAt(runtime: seq<Runtime>, port: int): seq<Route> {
    if runtime == [] then []
    else
      var r := runtime[|runtime| - 1];
      RoutesAt(runtime[..|runtime| - 1], port) +
      if r.ptype.Http? && EntryPort(r.entryName) == Some(port) then r.routes else []
  }

  function Merged(t: Tables, port: int): seq<Route> { PortRoutes(t.config.http, port) + RoutesAt(t.runtime, port) }

  // Registration.

  predicate IsHTTPProxyName(t: Tables, name: string) {
    || (exists b :: b in t.config.http && b.name == name)
    || (exists r :: r in t.runtime && r.name == name && r.ptype.Http?)
  }

  ghost function Conflicts(t: Tables, name: string, http: bool, port: int, routes: seq<Route>): Option<Rejection> {
    if name in t.registry then Some(NameConflict)
    else if exists n :: n in t.guestAddr && t.guestAddr[n] == Port16(port) &&
                        !(http && (HTTP_ENTRY_PREFIX <= n || IsHTTPProxyName(t, n))) then Some(PortConflict)
    else if http && Build(Merged(t, port) + routes).None? then Some(PortConflict)
    else None
  }

  /** An entry for a proxy: one in use, or one newly bound to some port. */
  datatype Entry = Unavailable | Existing(name: string, socket: Socket) | Created(name: string, port: int)

  /** `pick` is the runtime HTTP proxy met first in the table, and `bound` the port the operating
      system gives, if any. */
  function OpenEntry(t: Tables, r: Request, pick: Option<nat>, bound: Option<int>): Entry
    requires r.ptype.Some? && (pick.Some? ==> pick.value < |t.runtime|)
  {
    if r.ptype.value.Http? then
      if r.remotePort > 0 then
        var name := EntryName(r.remotePort);
        if name in t.guestLns then Existing(name, t.guestLns[name])
        else if bound.None? then Unavailable else Created(name, bound.value)
      else
        var name := if pick.Some? then t.runtime[pick.value].entryName else r.name;
        if pick.Some? && name in t.guestLns then Existing(name, t.guestLns[name])
        else if bound.None? then Unavailable
        else Created(if r.remotePort == 0 then EntryName(bound.value) else name, bound.value)
    else if bound.None? then Unavailable
    else Created(r.name, bound.value)
  }

  /** The map is walked until some HTTP proxy is met. */
  predicate CanPick(t: Tables, pick: Option<nat>) {
    match pick
    case Some(i) => i < |t.runtime| && t.runtime[i].ptype.Http?
    case None => forall r :: r in t.runtime ==> !r.ptype.Http?
  }

  predicate PortAllowed(r: Request) {
    r.ptype.Some? && (r.ptype.value in {Http, Https} || 0 < r.remotePort <= 65535)
  }

  /** The port an entry is known to listen on. */
  function EntryAddr(t: Tables, e: Entry): int
    requires !e.Unavailable? && (e.Existing? ==> e.name in t.guestAddr)
  {
    if e.Existing? then t.guestAddr[e.name] else e.port
  }

  /** The port by which the registration is checked once its entry is there. */
  function FinalPort(t: Tables, r: Request, e: Entry): int
    requires r.ptype.Some? && !e.Unavailable? && (e.Existing? ==> e.name in t.guestAddr)
  {
    if r.ptype.value in {Http, Https} && r.remotePort == 0 then EntryAddr(t, e) else r.remotePort
  }

  /** The table with one proxy set, in place of one of the same name if there is one. */
  function Put(runtime: seq<Runtime>, x: Runtime): seq<Runtime> {
    Others(runtime, x.name) + [x]
  }

  function Others(runtime: seq<Runtime>, name: string): seq<Runtime> {
    var i := IndexOf(runtime, name);
    if i < |runtime| then Dropped(runtime, i) else runtime
  }

  function Registered(t: Tables, r: Request, client: string, conn: nat, e: Entry, routes: seq<Route>): Tables
    requires r.ptype.Some? && !e.Unavailable? && Addressed(t) && (e.Existing? ==> e.name in t.guestLns)
  {
    var created := e.Created?;
    // An entry of that name bound meanwhile wins; the socket just bound is given back.
    var shared := r.ptype.value.Http? && e.name in t.guestLns;
    var socket := if e.Existing? then e.socket else if shared then t.guestLns[e.name] else t.next;
    var port := if shared then t.guestAddr[e.name] else EntryAddr(t, e);
    var t1 := t.(runtime := Put(t.runtime, Runtime(r.name, client, conn, r.ptype.value, e.name, socket, routes)),
                 registry := t.registry + {r.name},
                 open := if created && !shared then t.open + {t.next} else t.open,
                 next := if created then t.next + 1 else t.next,
                 guestAddr := t.guestAddr[r.name := port]);
    match r.ptype.value
    case Http =>
      if e.name in t.guestLns then t1
      else t1.(guestLns := t.guestLns[e.name := socket], guestAddr := t.guestAddr[e.name := port][r.name := port])
    case Udp => t1
    case _ => t1.(guestLns := t.guestLns[r.name := socket])
  }

  /** Its entry opened, the registration is checked again, for by now the port is known. */
  ghost function OpenedProxy(t: Tables, r: Request, client: string, conn: nat, pick: Option<nat>, bound: Option<int>,
                             routes: seq<Route>)
    : (Tables, Option<Rejection>)
    requires CanPick(t, pick) && Addressed(t) && r.ptype.Some?
  {
    var e := OpenEntry(t, r, pick, bound);
    if e.Unavailable? then (t, Some(PortConflict)) else
    var again := Conflicts(t, r.name, r.ptype.value.Http?, FinalPort(t, r, e), routes);
    if again.Some? then (if e.Created? then t.(next := t.next + 1) else t, again)
    else (Registered(t, r, client, conn, e, routes), None)
  }

  /** A registration as one step: checked, its entry opened, checked again, entered. */
  ghost function NewProxy(t: Tables, r: Request, client: string, conn: nat, pick: Option<nat>, bound: Option<int>)
    : (Tables, Option<Rejection>)
    requires CanPick(t, pick) && Addressed(t)
  {
    if r.name == "" then (t, Some(FieldInvalid))
    else if r.ptype.None? then (t, Some(TypeUnsupported))
    else if !PortAllowed(r) then (t, Some(FieldInvalid))
    else
      var routes := RuntimeHTTPRoutes(r);
      if routes.None? then (t, Some(FieldInvalid)) else
      var first := Conflicts(t, r.name, r.ptype.value.Http?, r.remotePort, routes.value);
      if first.Some? then (t, first) else OpenedProxy(t, r, client, conn, pick, bound, routes.value)
  }

  /** Every entry has an address on record. */
  predicate Addressed(t: Tables) { forall n :: n in t.guestLns ==> n in t.guestAddr }

  // Removal.

  function Dropped(runtime: seq<Runtime>, i: nat): seq<Runtime>
    requires i < |runtime|
  {
    runtime[..i] + runtime[i + 1..]
  }

  predicate HasUsers(config: ServerConfig, runtime: seq<Runtime>, entryName: string) {
    match EntryPort(entryName)
    case None => false
    case Some(port) =>
      || (exists b :: b in config.http && b.port == port)
      || (exists r :: r in runtime && r.ptype.Http? && r.entryName == entryName)
  }

  /** One runtime proxy leaves; a shared entry goes with its last user. */
  function Removed(t: Tables, i: nat): Tables
    requires i < |t.runtime|
  {
    var r, rest := t.runtime[i], Dropped(t.runtime, i);
    var t1 := t.(runtime := rest, guestAddr := t.guestAddr - {r.name});
    match r.ptype
    case Udp => t1.(open := t.open - {r.socket})
    case Http =>
      if HasUsers(t.config, rest, r.entryName) then t1
      else t1.(guestLns := t.guestLns - {r.entryName}, guestAddr := t.guestAddr - {r.name} - {r.entryName},
               open := t.open - {r.socket})
    case _ => t1.(guestLns := t.guestLns - {r.name}, open := t.open - {r.socket})
  }

  function IndexOf(runtime: seq<Runtime>, name: string): (i: nat)
    ensures i <= |runtime| && (i < |runtime| ==> runtime[i].name == name)
    ensures i == |runtime| ==> forall r :: r in runtime ==> r.name != name
  {
    if runtime == [] then 0
    else if runtime[0].name == name then 0
    else
      assert runtime == [runtime[0]] + runtime[1..];
      1 + IndexOf(runtime[1..], name)
  }

  function CloseProxy(t: Tables, client: string, name: string): Tables {
    var i := IndexOf(t.runtime, name);
    if name == "" || i == |t.runtime| || t.runtime[i].client != client then t
    else
      var t1 := Removed(t, i);
      t1.(registry := t.registry - {name},
          guestLns := if t.runtime[i].ptype.Http? then t1.guestLns else t1.guestLns - {name})
  }

  function FirstOf(runtime: seq<Runtime>, conn: nat): (i: nat)
    ensures i <= |runtime| && (i < |runtime| ==> runtime[i].conn == conn)
    ensures i == |runtime| <==> forall r :: r in runtime ==> r.conn != conn
  {
    if runtime == [] then 0
    else if runtime[0].conn == conn then 0
    else
      assert runtime == [runtime[0]] + runtime[1..];
      1 + FirstOf(runtime[1..], conn)
  }

  function AllRemoved(t: Tables, conn: nat): Tables
    decreases |t.runtime|
  {
    var i := FirstOf(t.runtime, conn);
    if i == |t.runtime| then t else AllRemoved(Removed(t, i), conn)
  }

  function Live(runtime: seq<Runtime>): set<string> { set r | r in runtime :: r.name }

  /** The end of a control session. The registry keeps the names that are not those of runtime
      proxies still live. */
  function Cleanup(t: Tables, conn: nat): Tables {
    if FirstOf(t.runtime, conn) == |t.runtime| then t
    else
      var t1 := AllRemoved(t, conn);
      t1.(registry := t.registry - Live(t1.runtime))
  }

  // What holds at all times.

  /** The name of the shared entry of some port, spelt in the one way entries are. */
  predicate Canonical(name: string) {
    EntryPort(name).Some? && name == EntryName(EntryPort(name).value) && ValidPort(EntryPort(name).value)
  }

  predicate Uses(config: ServerConfig, runtime: seq<Runtime>, entry: string) {
    || (exists b :: b in config.http && EntryName(b.port) == entry)
    || (exists r :: r in runtime && r.ptype.Http? && r.entryName == entry)
  }

  predicate IsStream(p: ProxyType) { p.Tcp? || p.Https? }

  predicate ConfigStream(config: ServerConfig, name: string) { name in Names(config.tcp) + Names(config.https) }

  predicate OneNameEach(runtime: seq<Runtime>) {
    forall i, j :: 0 <= i < j < |runtime| ==> runtime[i].name != runtime[j].name
  }

  /** A proxy of the configuration that shares its port with nobody. */
  predicate ConfigExclusive(config: ServerConfig, name: string) {
    name in AllNames(config) && forall b :: b in config.http ==> b.name != name
  }

  /** The port of a shared entry belongs to such a proxy, so that the entry can never be opened. */
  predicate Barred(t: Tables, entry: string) {
    EntryPort(entry).Some? &&
    exists m :: m in t.guestAddr && ConfigExclusive(t.config, m) && t.guestAddr[m] == EntryPort(entry).value
  }

  /** A name that spells a shared entry does no harm if that entry can never be opened. */
  predicate NameFits(t: Tables, name: string, ptype: ProxyType) {
    Canonical(name) ==> Barred(t, name) && !IsStream(ptype)
  }

  /** Names are told apart; those of the configuration are registered and stay with it. */
  ghost predicate ProxyNamesApart(t: Tables) {
    && OneNameEach(t.runtime)
    && (forall n :: n in AllNames(t.config) ==> n in t.registry && ':' !in n)
    && (forall r :: r in t.runtime ==> r.name != "" && r.name !in AllNames(t.config) && NameFits(t, r.name, r.ptype))
    && (forall b :: b in t.config.http ==> ValidPort(b.port))
  }

  predicate LiveName(runtime: seq<Runtime>, name: string) { exists r :: r in runtime && r.name == name }

  /** Every address on record is that of an entry, of the configuration, or of a live proxy. */
  ghost predicate AddressesKnown(t: Tables) {
    forall m :: m in t.guestAddr ==>
      ValidPort(t.guestAddr[m]) && (m in t.guestLns || m in AllNames(t.config) || LiveName(t.runtime, m))
  }

  /** No shared entry is open on a port that a proxy of the configuration has to itself. */
  ghost predicate PortsClear(t: Tables) { forall n :: n in t.guestLns && Canonical(n) ==> !Barred(t, n) }

  /** A shared entry is in the table exactly while a proxy of the configuration or of a client uses it. */
  ghost predicate SharedUsed(t: Tables) {
    forall n :: Canonical(n) ==> (n in t.guestLns <==> Uses(t.config, t.runtime, n))
  }

  predicate StreamOf(runtime: seq<Runtime>, n: string) { exists r :: r in runtime && IsStream(r.ptype) && r.name == n }

  /** Every other entry belongs to the one proxy it is named after. */
  ghost predicate OwnUsed(t: Tables) {
    forall n :: !Canonical(n) ==> (n in t.guestLns <==> ConfigStream(t.config, n) || StreamOf(t.runtime, n))
  }

  /** Where the socket of a runtime proxy is to be found. */
  predicate Placed(t: Tables, r: Runtime) {
    match r.ptype
    case Http => Canonical(r.entryName) && r.entryName in t.guestLns && t.guestLns[r.entryName] == r.socket
    case Udp => true
    case _ => r.name in t.guestLns && t.guestLns[r.name] == r.socket
  }

  predicate AllPlaced(t: Tables) { forall r :: r in t.runtime ==> Placed(t, r) }

  predicate OneEach(m: map<string, Socket>) { forall a, b :: a in m && b in m && m[a] == m[b] ==> a == b }

  predicate UdpOn(runtime: seq<Runtime>, s: Socket) { exists r :: r in runtime && r.ptype.Udp? && r.socket == s }

  /** The open sockets are those of the entries and of the UDP proxies, each once. */
  ghost predicate SocketsOwned(t: Tables) {
    && OneEach(t.guestLns)
    && (forall s :: s in t.open <==> s in t.guestLns.Values || UdpOn(t.runtime, s))
    && (forall q, r :: q in t.runtime && r in t.runtime && q.ptype.Udp? && r.ptype.Udp? && q.socket == r.socket ==>
         q == r)
    && (forall r :: r in t.runtime && r.ptype.Udp? ==> r.socket !in t.guestLns.Values)
    && (forall s :: s in t.open ==> s < t.next)
  }

  /** The table of every port can be built. */
  ghost predicate RoutesBuild(config: ServerConfig, runtime: seq<Runtime>) {
    forall p :: Build(PortRoutes(config.http, p) + RoutesAt(runtime, p)).Some?
  }

  /** A shared entry listens on the port it is named after. */
  ghost predicate Located(t: Tables) {
    Addressed(t) && forall n :: Canonical(n) && n in t.guestLns ==> t.guestAddr[n] == EntryPort(n).value
  }

  /** What a visitor or the operator can see: the entry table holds just the entries in use, the open
      sockets are theirs, every proxy is where it is looked for, every shared entry listens on the port
      it is named after, and every port has its routes. */
  ghost predicate Working(t: Tables) {
    && SharedUsed(t) && OwnUsed(t) && AllPlaced(t) && SocketsOwned(t) && RoutesBuild(t.config, t.runtime) && Located(t)
  }

  ghost predicate Bookkeeping(t: Tables) { ProxyNamesApart(t) && PortsClear(t) }

  /** All but the use of shared entries. */
  ghost predicate Consistent(t: Tables) {
    && Bookkeeping(t) && OwnUsed(t) && AllPlaced(t) && SocketsOwned(t) && RoutesBuild(t.config, t.runtime) && Located(t)
  }

  ghost predicate Sound(t: Tables) { Bookkeeping(t) && AddressesKnown(t) && Working(t) }

  lemma DroppedMembers(rs: seq<Runtime>, i: nat)
    requires OneNameEach(rs) && i < |rs|
    ensures forall r :: r in Dropped(rs, i) <==> r in rs && r.name != rs[i].name
    ensures OneNameEach(Dropped(rs, i))
  {
    DroppedNames(rs, i);
    forall r ensures r in Dropped(rs, i) <==> r in rs && r.name != rs[i].name {
      DroppedMember(rs, i, r);
    }
  }

  lemma DroppedMember(rs: seq<Runtime>, i: nat, r: Runtime)
    requires OneNameEach(rs) && i < |rs|
    ensures r in Dropped(rs, i) <==> r in rs && r.name != rs[i].name
  {
    var rest := Dropped(rs, i);
    if r in rest {
      var k :| 0 <= k < |rest| && rest[k] == r;
      assert rs[if k < i then k else k + 1] == r;
    }
    if r in rs && r.name != rs[i].name {
      var j :| 0 <= j < |rs| && rs[j] == r;
      assert rest[if j < i then j else j - 1] == r;
    }
  }

  lemma DroppedNames(rs: seq<Runtime>, i: nat)
    requires OneNameEach(rs) && i < |rs|
    ensures OneNameEach(Dropped(rs, i))
  {
    var rest := Dropped(rs, i);
    forall a, b | 0 <= a < b < |rest| ensures rest[a].name != rest[b].name {
      assert rest[a] == rs[if a < i then a else a + 1] && rest[b] == rs[if b < i then b else b + 1];
    }
  }

  lemma UsersAreUses(config: ServerConfig, runtime: seq<Runtime>, entry: string)
    requires Canonical(entry) && forall b :: b in config.http ==> ValidPort(b.port)
    ensures HasUsers(config, runtime, entry) <==> Uses(config, runtime, entry)
  {
    forall b | b in config.http ensures EntryName(b.port) == entry <==> b.port == EntryPort(entry).value {
      EntryPortOfName(b.port);
    }
  }

  lemma CanonicalHasColon(name: string)
    requires Canonical(name)
    ensures ':' in name
  {
    PrefixHasColon(name);
  }

  // Removal keeps it.

  lemma UsesAfterDrop(config: ServerConfig, rs: seq<Runtime>, i: nat, n: string)
    requires OneNameEach(rs) && i < |rs|
    ensures !(rs[i].ptype.Http? && rs[i].entryName == n) ==> (Uses(config, Dropped(rs, i), n) <==> Uses(config, rs, n))
  {
    DroppedMembers(rs, i);
    if Uses(config, rs, n) && !Uses(config, Dropped(rs, i), n) {
      var r :| r in rs && r.ptype.Http? && r.entryName == n;
      assert r.name == rs[i].name;
      SameName(rs, r, rs[i]);
    }
  }

  lemma SameName(rs: seq<Runtime>, q: Runtime, r: Runtime)
    requires OneNameEach(rs) && q in rs && r in rs && q.name == r.name
    ensures q == r
  {
    var i :| 0 <= i < |rs| && rs[i] == q;
    var j :| 0 <= j < |rs| && rs[j] == r;
  }

  lemma RemovedShared(t: Tables, i: nat)
    requires ProxyNamesApart(t) && SharedUsed(t) && AllPlaced(t) && i < |t.runtime|
    ensures SharedUsed(Removed(t, i))
  {
    var u, rs, r := Removed(t, i), t.runtime, t.runtime[i];
    assert r in rs && Placed(t, r);
    if r.ptype.Http? { UsersAreUses(t.config, Dropped(rs, i), r.entryName); }
    forall n | Canonical(n) ensures n in u.guestLns <==> Uses(u.config, u.runtime, n) {
      UsesAfterDrop(t.config, rs, i, n);
    }
  }

  lemma RemovedOwn(t: Tables, i: nat)
    requires ProxyNamesApart(t) && OwnUsed(t) && AllPlaced(t) && i < |t.runtime|
    ensures OwnUsed(Removed(t, i))
  {
    var u, rs, r := Removed(t, i), t.runtime, t.runtime[i];
    assert r in rs && Placed(t, r);
    ConfigStreamNamed(t.config, r.name);
    forall n | !Canonical(n) ensures n in u.guestLns <==> ConfigStream(u.config, n) || StreamOf(u.runtime, n) {
      StreamsAfterDrop(rs, i, n);
    }
  }

  lemma StreamsAfterDrop(rs: seq<Runtime>, i: nat, n: string)
    requires OneNameEach(rs) && i < |rs|
    ensures StreamOf(Dropped(rs, i), n) <==> StreamOf(rs, n) && !(IsStream(rs[i].ptype) && n == rs[i].name)
  {
    DroppedMembers(rs, i);
    assert rs[i] in rs;
    if StreamOf(rs, n) {
      var q :| q in rs && IsStream(q.ptype) && q.name == n;
      if n == rs[i].name { SameName(rs, q, rs[i]); }
    }
  }

  lemma RemovedPlaced(t: Tables, i: nat)
    requires ProxyNamesApart(t) && SharedUsed(t) && AllPlaced(t) && i < |t.runtime|
    ensures AllPlaced(Removed(t, i))
  {
    var u, rs, r := Removed(t, i), t.runtime, t.runtime[i];
    DroppedMembers(rs, i);
    assert r in rs && Placed(t, r);
    if r.ptype.Http? { UsersAreUses(t.config, Dropped(rs, i), r.entryName); }
    forall q | q in u.runtime ensures Placed(u, q) {
      assert q in rs && Placed(t, q);
      if q.ptype.Http? { assert Uses(u.config, u.runtime, q.entryName); }
    }
  }

  /** What a removal closes was open, and no other entry stood on it. */
  lemma RemovedSockets(t: Tables, i: nat)
    requires ProxyNamesApart(t) && SocketsOwned(t) && AllPlaced(t) && i < |t.runtime|
    ensures SocketsOwned(Removed(t, i)) && t.runtime[i].socket in t.open
  {
    var u, rs, r := Removed(t, i), t.runtime, t.runtime[i];
    DroppedMembers(rs, i);
    assert r in rs && Placed(t, r);
    if IsStream(r.ptype) {
      ValuesBut(t.guestLns, r.name);
    } else if r.ptype.Http? {
      ValuesBut(t.guestLns, r.entryName);
    }
    forall s ensures UdpOn(u.runtime, s) <==> UdpOn(rs, s) && !(r.ptype.Udp? && s == r.socket) {
      if UdpOn(rs, s) {
        var q :| q in rs && q.ptype.Udp? && q.socket == s;
        if q.name == r.name { SameName(rs, q, r); }
      }
    }
  }

  lemma ValuesBut(m: map<string, Socket>, n: string)
    requires OneEach(m) && n in m
    ensures (m - {n}).Values == m.Values - {m[n]}
  {
    forall s | s in m.Values - {m[n]} ensures s in (m - {n}).Values {
      var k :| k in m && m[k] == s;
      assert k in m - {n};
    }
  }

  lemma ConfigStreamNamed(config: ServerConfig, n: string)
    ensures ConfigStream(config, n) ==> n in AllNames(config)
  {}

  lemma {:induction false} RoutesAtConcat(u: seq<Runtime>, v: seq<Runtime>, port: int)
    ensures RoutesAt(u + v, port) == RoutesAt(u, port) + RoutesAt(v, port)
    decreases |v|
  {
    if v == [] {
      assert u + v == u;
    } else {
      var init, r := v[..|v| - 1], v[|v| - 1];
      RoutesAtConcat(u, init, port);
      assert (u + v)[..|u + v| - 1] == u + init && (u + v)[|u + v| - 1] == r;
      var own := if r.ptype.Http? && EntryPort(r.entryName) == Some(port) then r.routes else [];
      Regroup(RoutesAt(u, port), RoutesAt(init, port), [], own);
    }
  }

  lemma BuildWithoutMiddle(x: seq<Route>, m: seq<Route>, y: seq<Route>)
    requires Build(x + m + y).Some?
    ensures Build(x + y).Some?
  {
    var all, some := x + m + y, x + y;
    forall r | r in some ensures Normalize(r).Some? { assert r in all; }
    forall i, j | 0 <= i < j < |some|
      ensures RouteKey(Normalized(some)[i]) != RouteKey(Normalized(some)[j])
    {
      var k, l := if i < |x| then i else i + |m|, if j < |x| then j else j + |m|;
      assert all[k] == some[i] && all[l] == some[j];
      assert RouteKey(Normalized(all)[k]) != RouteKey(Normalized(all)[l]);
    }
  }

  lemma RoutesAtDropped(rs: seq<Runtime>, i: nat, p: int)
    requires i < |rs|
    ensures RoutesAt(rs, p) == RoutesAt(rs[..i], p) + RoutesAt([rs[i]], p) + RoutesAt(rs[i + 1..], p)
    ensures RoutesAt(Dropped(rs, i), p) == RoutesAt(rs[..i], p) + RoutesAt(rs[i + 1..], p)
  {
    assert rs == rs[..i] + [rs[i]] + rs[i + 1..];
    RoutesAtConcat(rs[..i] + [rs[i]], rs[i + 1..], p);
    RoutesAtConcat(rs[..i], [rs[i]], p);
    RoutesAtConcat(rs[..i], rs[i + 1..], p);
  }

  lemma Regroup(c: seq<Route>, x: seq<Route>, m: seq<Route>, y: seq<Route>)
    ensures c + (x + m + y) == (c + x) + m + y
    ensures c + (x + y) == (c + x) + y
  {}

  lemma BuildsAfterDrop(c: seq<Route>, rs: seq<Runtime>, i: nat, p: int)
    requires i < |rs| && Build(c + RoutesAt(rs, p)).Some?
    ensures Build(c + RoutesAt(Dropped(rs, i), p)).Some?
  {
    RoutesAtDropped(rs, i, p);
    var x, m, y := RoutesAt(rs[..i], p), RoutesAt([rs[i]], p), RoutesAt(rs[i + 1..], p);
    Regroup(c, x, m, y);
    BuildWithoutMiddle(c + x, m, y);
  }

  lemma RemovedRoutes(config: ServerConfig, rs: seq<Runtime>, i: nat)
    requires RoutesBuild(config, rs) && i < |rs|
    ensures RoutesBuild(config, Dropped(rs, i))
  {
    forall p ensures Build(PortRoutes(config.http, p) + RoutesAt(Dropped(rs, i), p)).Some? {
      BuildsAfterDrop(PortRoutes(config.http, p), rs, i, p);
    }
  }

  lemma RemovedSound(t: Tables, i: nat)
    requires Sound(t) && i < |t.runtime|
    ensures Sound(Removed(t, i)) && t.runtime[i].socket in t.open
  {
    RemovedShared(t, i);
    RemovedOwn(t, i);
    RemovedPlaced(t, i);
    RemovedSockets(t, i);
    RemovedRoutes(t.config, t.runtime, i);
    RemovedNames(t, i);
    RemovedKnown(t, i);
    RemovedLocated(t, i);
  }

  /** Only the addresses of the proxy and of its entry go; those of the configuration stay. */
  lemma RemovedNames(t: Tables, i: nat)
    requires Bookkeeping(t) && AllPlaced(t) && i < |t.runtime|
    ensures Bookkeeping(Removed(t, i))
  {
    var r, u := t.runtime[i], Removed(t, i);
    assert r in t.runtime && Placed(t, r);
    DroppedMembers(t.runtime, i);
    if r.ptype.Http? { CanonicalHasColon(r.entryName); }
    forall n ensures Barred(u, n) <==> Barred(t, n) {}
  }

  lemma RemovedKnown(t: Tables, i: nat)
    requires AddressesKnown(t) && OneNameEach(t.runtime) && i < |t.runtime|
    ensures AddressesKnown(Removed(t, i))
  {
    var u := Removed(t, i);
    DroppedMembers(t.runtime, i);
    forall m | m in u.guestAddr ensures m in u.guestLns || m in AllNames(u.config) || LiveName(u.runtime, m) {
      if LiveName(t.runtime, m) {
        var q :| q in t.runtime && q.name == m;
        assert q in u.runtime;
      }
    }
  }

  /** A proxy without a stream entry of its own is not in the entry table by its name. */
  lemma NotAnEntry(t: Tables, r: Runtime)
    requires Bookkeeping(t) && OwnUsed(t) && r in t.runtime && !IsStream(r.ptype)
    ensures r.name !in t.guestLns
  {
    ConfigStreamNamed(t.config, r.name);
    forall q | q in t.runtime && q.name == r.name ensures q == r {
      SameName(t.runtime, q, r);
    }
  }

  lemma RemovedLocated(t: Tables, i: nat)
    requires Bookkeeping(t) && OwnUsed(t) && AllPlaced(t) && Located(t) && i < |t.runtime|
    ensures Located(Removed(t, i))
  {
    var r := t.runtime[i];
    assert r in t.runtime;
    if !IsStream(r.ptype) { NotAnEntry(t, r); }
  }

  /** A client closes one of its proxies. */
  lemma CloseSound(t: Tables, client: string, name: string)
    requires Sound(t)
    ensures Sound(CloseProxy(t, client, name))
  {
    var i := IndexOf(t.runtime, name);
    if i < |t.runtime| && t.runtime[i].client == client && name != "" {
      var r := t.runtime[i];
      assert r in t.runtime;
      RemovedSound(t, i);
      var u := Removed(t, i);
      if r.ptype.Udp? { NotAnEntry(t, r); }
      assert u.guestLns - {name} == u.guestLns || r.ptype.Http?;
      assert CloseProxy(t, client, name) == u.(registry := t.registry - {name});
      SoundWithRegistry(u, t.registry - {name});
    }
  }

  lemma SoundWithRegistry(t: Tables, registry: set<string>)
    requires Sound(t) && forall n :: n in AllNames(t.config) ==> n in registry
    ensures Sound(t.(registry := registry))
  {}

  lemma {:induction false} AllRemovedSound(t: Tables, conn: nat)
    requires Sound(t)
    ensures Sound(AllRemoved(t, conn))
    decreases |t.runtime|
  {
    var i := FirstOf(t.runtime, conn);
    if i < |t.runtime| {
      RemovedSound(t, i);
      AllRemovedSound(Removed(t, i), conn);
      assert AllRemoved(t, conn) == AllRemoved(Removed(t, i), conn);
    }
  }

  lemma {:induction false} AllRemovedKeeps(t: Tables, conn: nat)
    ensures AllRemoved(t, conn).config == t.config && AllRemoved(t, conn).registry == t.registry
    decreases |t.runtime|
  {
    var i := FirstOf(t.runtime, conn);
    if i < |t.runtime| { AllRemovedKeeps(Removed(t, i), conn); }
  }

  lemma {:induction false} AllRemovedLeaves(t: Tables, conn: nat)
    requires OneNameEach(t.runtime)
    ensures forall r :: r in AllRemoved(t, conn).runtime <==> r in t.runtime && r.conn != conn
    decreases |t.runtime|
  {
    var i := FirstOf(t.runtime, conn);
    if i < |t.runtime| {
      DroppedOthers(t.runtime, i, conn);
      DroppedNames(t.runtime, i);
      AllRemovedLeaves(Removed(t, i), conn);
      assert AllRemoved(t, conn) == AllRemoved(Removed(t, i), conn) && Removed(t, i).runtime == Dropped(t.runtime, i);
    }
  }

  lemma DroppedOthers(rs: seq<Runtime>, i: nat, conn: nat)
    requires OneNameEach(rs) && i < |rs| && rs[i].conn == conn
    ensures forall r: Runtime :: r.conn != conn ==> (r in Dropped(rs, i) <==> r in rs)
  {
    var own := rs[i];
    DroppedMembers(rs, i);
    forall r | r in rs && r.conn != conn ensures r.name != own.name {
      if r.name == own.name {
        SameName(rs, r, own);
        assert false;
      }
    }
  }

  /** A session ends; the proxies of all others stay as they were. */
  lemma CleanupSound(t: Tables, conn: nat)
    requires Sound(t)
    ensures Sound(Cleanup(t, conn))
    ensures forall r :: r in Cleanup(t, conn).runtime <==> r in t.runtime && r.conn != conn
  {
    AllRemovedSound(t, conn);
    AllRemovedKeeps(t, conn);
    AllRemovedLeaves(t, conn);
    var u := AllRemoved(t, conn);
    if FirstOf(t.runtime, conn) < |t.runtime| {
      SoundWithRegistry(u, t.registry - Live(u.runtime));
    }
  }

  // Registration.

  lemma IndexOfFresh(runtime: seq<Runtime>, name: string)
    requires forall r :: r in runtime ==> r.name != name
    ensures IndexOf(runtime, name) == |runtime| && Others(runtime, name) == runtime
  {}

  /** What the machine guarantees: 64-bit integers in a request, sixteen-bit ports from the operating
      system, and the wanted one, as far as its sixteen bits go, if one is wanted. */
  predicate Possible(t: Tables, r: Request, pick: Option<nat>, bound: Option<int>) {
    && CanPick(t, pick) && MIN_INT <= r.remotePort <= MAX_INT
    && (bound.Some? ==> ValidPort(bound.value) && (Port16(r.remotePort) != 0 ==> bound.value == Port16(r.remotePort)))
  }

  /** The tables without the proxy of some name; its entry is left where it is. */
  function Without(t: Tables, name: string): Tables { t.(runtime := Others(t.runtime, name)) }

  /** The entry an HTTP registration asks for, or comes to share. */
  function EntryKey(t: Tables, r: Request, pick: Option<nat>): string
    requires CanPick(t, pick)
  {
    if r.remotePort > 0 then EntryName(r.remotePort)
    else if pick.Some? then t.runtime[pick.value].entryName else r.name
  }

  /** The routes of a registration do not collide on the port of the entry it comes to share. */
  ghost predicate RoutesFit(t: Tables, r: Request, pick: Option<nat>)
    requires CanPick(t, pick)
  {
    var port := EntryPort(EntryKey(t, r, pick));
    && port.Some? && RuntimeHTTPRoutes(r).Some?
    && Build(Merged(Without(t, r.name), port.value) + RuntimeHTTPRoutes(r).value).Some?
  }

  /** A live proxy of the same name loses nothing: it is an HTTP proxy, and its entry has other users
      or gets the new proxy. */
  predicate Replaceable(t: Tables, r: Request, pick: Option<nat>, q: Runtime)
    requires CanPick(t, pick)
  {
    q.ptype.Http? && (Uses(t.config, Others(t.runtime, r.name), q.entryName) ||
                      (r.ptype == Some(Http) && EntryKey(t, r, pick) == q.entryName))
  }

  predicate AllReplaceable(t: Tables, r: Request, pick: Option<nat>)
    requires CanPick(t, pick)
  {
    forall q :: q in t.runtime && q.name == r.name ==> Replaceable(t, r, pick, q)
  }

  /** The number of an HTTP port is that of a port; a negative one does only if there is an entry to
      share and the routes fit there. */
  ghost predicate PortFits(t: Tables, r: Request, pick: Option<nat>)
    requires CanPick(t, pick)
  {
    r.ptype == Some(Http) ==> r.remotePort <= MAX_PORT && (r.remotePort < 0 ==> pick.Some? && RoutesFit(t, r, pick))
  }

  /** What a registration should be checked for and is not: a name that spells a shared entry, an HTTP
      port that is none, and the name of a live proxy whose place cannot be taken. */
  ghost predicate Safe(t: Tables, r: Request, pick: Option<nat>)
    requires CanPick(t, pick)
  {
    r.ptype.Some? && NameFits(t, r.name, r.ptype.value) && PortFits(t, r, pick) && AllReplaceable(t, r, pick)
  }

  /** What is known of an entry found for a request whose name is free. */
  ghost predicate Fitting(t: Tables, r: Request, e: Entry, routes: seq<Route>) {
    && r.ptype.Some? && !e.Unavailable? && Unused(t, r.name) && NameFits(t, r.name, r.ptype.value)
    && (e.Existing? ==> e.name in t.guestLns && t.guestLns[e.name] == e.socket && r.ptype.value.Http?)
    && (r.ptype.value.Http? ==> Canonical(e.name) && !Barred(t, e.name))
    && (r.ptype.value.Http? && e.Created? ==> e.port == EntryPort(e.name).value)
    && (r.ptype.value.Http? ==> Build(Merged(t, EntryPort(e.name).value) + routes).Some?)
    && (!r.ptype.value.Http? ==> e.name == r.name)
  }

  lemma PortIsCanonical(p: int)
    requires ValidPort(p)
    ensures Canonical(EntryName(p)) && EntryPort(EntryName(p)) == Some(p)
  {
    EntryPortOfName(p);
  }

  lemma OthersMembers(rs: seq<Runtime>, name: string)
    requires OneNameEach(rs)
    ensures OneNameEach(Others(rs, name)) && forall q :: q in Others(rs, name) <==> q in rs && q.name != name
  {
    if IndexOf(rs, name) < |rs| { DroppedMembers(rs, IndexOf(rs, name)); }
  }

  lemma RegroupAll(c: seq<Route>, x: seq<Route>, m: seq<Route>, y: seq<Route>, z: seq<Route>)
    ensures c + (x + m + y) + z == (c + x) + m + (y + z)
    ensures c + (x + y) + z == (c + x) + (y + z)
  {}

  /** Routes that fit beside those of all proxies fit beside those of all but one. */
  lemma FitsWithout(t: Tables, name: string, p: int, routes: seq<Route>)
    requires Build(Merged(t, p) + routes).Some?
    ensures Build(Merged(Without(t, name), p) + routes).Some?
  {
    hide RoutesAt, Build, Dropped;
    var i := IndexOf(t.runtime, name);
    if i < |t.runtime| {
      RoutesAtDropped(t.runtime, i, p);
      var c, x, m, y := PortRoutes(t.config.http, p), RoutesAt(t.runtime[..i], p), RoutesAt([t.runtime[i]], p),
                        RoutesAt(t.runtime[i + 1..], p);
      RegroupAll(c, x, m, y, routes);
      BuildWithoutMiddle(c + x, m, y + routes);
    }
  }

  /** The entry an accepted HTTP registration comes to. */
  lemma EntryFits(t: Tables, r: Request, pick: Option<nat>, bound: Option<int>)
    requires Sound(t) && Possible(t, r, pick, bound) && r.ptype == Some(Http) &&
             !OpenEntry(t, r, pick, bound).Unavailable?
    requires r.remotePort <= MAX_PORT && (r.remotePort < 0 ==> pick.Some?)
    ensures var e := OpenEntry(t, r, pick, bound);
            && Canonical(e.name) && (e.Created? ==> e.port == EntryPort(e.name).value)
            && (e.Existing? ==> e.name in t.guestLns && t.guestLns[e.name] == e.socket)
            && (r.remotePort > 0 || pick.Some? ==> e.name == EntryKey(t, r, pick))
            && (r.remotePort >= 0 ==> FinalPort(t, r, e) == EntryPort(e.name).value)
  {
    hide RoutesBuild, SocketsOwned, OwnUsed, SharedUsed, ProxyNamesApart;
    if r.remotePort > 0 {
      PortIsCanonical(r.remotePort);
    } else if pick.Some? {
      assert t.runtime[pick.value] in t.runtime && Placed(t, t.runtime[pick.value]);
    } else {
      PortIsCanonical(bound.value);
    }
  }

  lemma AcceptedBuilds(t: Tables, r: Request, client: string, conn: nat, pick: Option<nat>, bound: Option<int>)
    requires CanPick(t, pick) && Addressed(t) && r.ptype == Some(Http)
    requires NewProxy(t, r, client, conn, pick, bound).1.None?
    ensures RuntimeHTTPRoutes(r).Some? && !OpenEntry(t, r, pick, bound).Unavailable?
    ensures Build(Merged(t, FinalPort(t, r, OpenEntry(t, r, pick, bound))) + RuntimeHTTPRoutes(r).value).Some?
  {}

  /** A configured proxy that has a port to itself keeps HTTP registrations off it. */
  lemma CheckedNotBarred(t: Tables, name: string, port: int, routes: seq<Route>)
    requires ProxyNamesApart(t) && ValidPort(port) && Conflicts(t, name, true, port, routes).None?
    ensures !Barred(t, EntryName(port))
  {
    hide Build, Merged, EntryPort, EntryName, NameFits;
    PortIsCanonical(port);
    assert Port16(port) == port;
    forall m | m in t.guestAddr && ConfigExclusive(t.config, m) ensures t.guestAddr[m] != port {
      NotHTTPName(t, m);
    }
  }

  lemma NotHTTPName(t: Tables, m: string)
    requires ProxyNamesApart(t) && ConfigExclusive(t.config, m)
    ensures !(HTTP_ENTRY_PREFIX <= m) && !IsHTTPProxyName(t, m)
  {
    assert ':' !in m;
    if HTTP_ENTRY_PREFIX <= m { PrefixHasColon(m); }
  }

  lemma AcceptedNotBarred(t: Tables, r: Request, client: string, conn: nat, pick: Option<nat>, bound: Option<int>)
    requires Sound(t) && Possible(t, r, pick, bound) && PortFits(t, r, pick) && r.ptype == Some(Http)
    requires NewProxy(t, r, client, conn, pick, bound).1.None?
    ensures !Barred(t, OpenEntry(t, r, pick, bound).name)
  {
    AcceptedIsRegistered(t, r, client, conn, pick, bound);
    EntryFits(t, r, pick, bound);
    AcceptedTwice(t, r, client, conn, pick, bound);
    hide NewProxy, OpenEntry, Conflicts, RuntimeHTTPRoutes, RoutesBuild, SocketsOwned;
    var e := OpenEntry(t, r, pick, bound);
    if e.Created? {
      CheckedNotBarred(t, r.name, FinalPort(t, r, e), RuntimeHTTPRoutes(r).value);
    }
  }

  lemma AcceptedTwice(t: Tables, r: Request, client: string, conn: nat, pick: Option<nat>, bound: Option<int>)
    requires CanPick(t, pick) && Addressed(t) && r.ptype == Some(Http)
    requires NewProxy(t, r, client, conn, pick, bound).1.None?
    ensures RuntimeHTTPRoutes(r).Some? && !OpenEntry(t, r, pick, bound).Unavailable?
    ensures Conflicts(t, r.name, true, FinalPort(t, r, OpenEntry(t, r, pick, bound)), RuntimeHTTPRoutes(r).value).None?
  {
    hide Conflicts, RuntimeHTTPRoutes;
  }

  /** The entry of an accepted registration is what it asked for, on the port of its number. */
  lemma AcceptedFits(t: Tables, r: Request, client: string, conn: nat, pick: Option<nat>, bound: Option<int>)
    requires Sound(t) && Possible(t, r, pick, bound) && PortFits(t, r, pick)
    requires NewProxy(t, r, client, conn, pick, bound).1.None? && NameFits(t, r.name, r.ptype.value)
    ensures RuntimeHTTPRoutes(r).Some?
    ensures Fitting(Without(t, r.name), r, OpenEntry(t, r, pick, bound), RuntimeHTTPRoutes(r).value)
    ensures r.ptype == Some(Http) && (r.remotePort > 0 || pick.Some?) ==>
              OpenEntry(t, r, pick, bound).name == EntryKey(t, r, pick)
  {
    AcceptedIsRegistered(t, r, client, conn, pick, bound);
    WithoutUnused(t, r.name);
    if r.ptype.value.Http? {
      HTTPFits(t, r, client, conn, pick, bound);
      EntryFits(t, r, pick, bound);
      hide NewProxy, OpenEntry, Build, Merged, RuntimeHTTPRoutes, EntryPort, EntryName, Working, ProxyNamesApart;
    } else {
      hide NewProxy, Build, Merged, RuntimeHTTPRoutes, EntryPort, EntryName, Working, ProxyNamesApart;
    }
  }

  lemma WithoutUnused(t: Tables, name: string)
    requires OneNameEach(t.runtime) && name != "" && name !in t.registry
    ensures Unused(Without(t, name), name)
    ensures forall n, ptype :: NameFits(Without(t, name), n, ptype) <==> NameFits(t, n, ptype)
  {
    hide EntryPort, EntryName;
    OthersMembers(t.runtime, name);
  }

  lemma HTTPFits(t: Tables, r: Request, client: string, conn: nat, pick: Option<nat>, bound: Option<int>)
    requires Sound(t) && Possible(t, r, pick, bound) && PortFits(t, r, pick) && r.ptype == Some(Http)
    requires NewProxy(t, r, client, conn, pick, bound).1.None?
    ensures RuntimeHTTPRoutes(r).Some?
    ensures var e := OpenEntry(t, r, pick, bound);
            && !e.Unavailable? && Canonical(e.name) && !Barred(Without(t, r.name), e.name)
            && Build(Merged(Without(t, r.name), EntryPort(e.name).value) + RuntimeHTTPRoutes(r).value).Some?
  {
    AcceptedIsRegistered(t, r, client, conn, pick, bound);
    EntryFits(t, r, pick, bound);
    AcceptedBuilds(t, r, client, conn, pick, bound);
    AcceptedNotBarred(t, r, client, conn, pick, bound);
    hide NewProxy, OpenEntry, Build, RuntimeHTTPRoutes, EntryName, Working, ProxyNamesApart;
    var e := OpenEntry(t, r, pick, bound);
    if r.remotePort >= 0 { FitsWithout(t, r.name, EntryPort(e.name).value, RuntimeHTTPRoutes(r).value); }
  }

  /** `u` is `t` with the proxy `x` entered: under its entry's key if it is HTTP, under its own if it
      is another stream; on a new socket, or on that of an entry in use. */
  ghost predicate Entered(t: Tables, u: Tables, x: Runtime) {
    && u.config == t.config && u.runtime == t.runtime + [x] && u.registry == t.registry + {x.name}
    && (x.ptype.Http? ==> Canonical(x.entryName) && !Barred(t, x.entryName))
    && (x.ptype.Http? ==> u.guestLns == t.guestLns[x.entryName := x.socket])
    && (forall n :: Barred(u, n) <==> Barred(t, n))
    && (x.ptype.Udp? ==> u.guestLns == t.guestLns)
    && (IsStream(x.ptype) ==> u.guestLns == t.guestLns[x.name := x.socket])
    && (x.ptype.Http? && x.entryName in t.guestLns ==> x.socket == t.guestLns[x.entryName] && u.open == t.open)
    && (!(x.ptype.Http? && x.entryName in t.guestLns) ==> x.socket == t.next < u.next && u.open == t.open + {t.next})
    && t.next <= u.next
    && (x.ptype.Http? ==> Build(Merged(t, EntryPort(x.entryName).value) + x.routes).Some?)
  }

  /** A name nobody has. */
  ghost predicate Unused(t: Tables, name: string) {
    name != "" && name !in t.registry && forall q :: q in t.runtime ==> q.name != name
  }

  /** The proxy a registration enters. */
  function Newcomer(t: Tables, r: Request, client: string, conn: nat, e: Entry, routes: seq<Route>): Runtime
    requires r.ptype.Some? && !e.Unavailable?
  {
    var shared := r.ptype.value.Http? && e.name in t.guestLns;
    Runtime(r.name, client, conn, r.ptype.value, e.name,
            if e.Existing? then e.socket else if shared then t.guestLns[e.name] else t.next, routes)
  }

  lemma RegisteredEnters(t: Tables, r: Request, client: string, conn: nat, e: Entry, routes: seq<Route>)
    requires ProxyNamesApart(t) && Addressed(t) && Fitting(t, r, e, routes)
    ensures Entered(t, Registered(t, r, client, conn, e, routes), Newcomer(t, r, client, conn, e, routes))
  {
    hide Barred, ProxyNamesApart, NameFits, EntryPort, EntryName, Build;
    IndexOfFresh(t.runtime, r.name);
    if r.ptype.value.Http? { CanonicalHasColon(e.name); }
    if r.ptype.value.Http? && e.name in t.guestLns {
      assert t.guestLns == t.guestLns[e.name := t.guestLns[e.name]];
    }
    RegisteredBars(t, r, client, conn, e, routes);
  }

  /** The addresses of the configuration stay. */
  lemma RegisteredBars(t: Tables, r: Request, client: string, conn: nat, e: Entry, routes: seq<Route>)
    requires ProxyNamesApart(t) && Addressed(t) && r.ptype.Some? && !e.Unavailable? && r.name !in t.registry
    requires (e.Existing? ==> e.name in t.guestLns) && (r.ptype.value.Http? ==> e.name == r.name || ':' in e.name)
    ensures forall n :: Barred(Registered(t, r, client, conn, e, routes), n) <==> Barred(t, n)
  {
    hide Put, Build;
    var u := Registered(t, r, client, conn, e, routes);
    forall m | m in AllNames(t.config)
      ensures (m in u.guestAddr <==> m in t.guestAddr) && (m in t.guestAddr ==> u.guestAddr[m] == t.guestAddr[m])
    {
      assert m in t.registry && ':' !in m;
    }
    forall n ensures Barred(u, n) <==> Barred(t, n) {}
  }

  /** Registering replaces: it is as if the proxy of that name had not been there. */
  lemma RegisteredReplaces(t: Tables, r: Request, client: string, conn: nat, e: Entry, routes: seq<Route>)
    requires OneNameEach(t.runtime) && r.ptype.Some? && !e.Unavailable? && Addressed(t)
    requires e.Existing? ==> e.name in t.guestLns
    ensures Registered(t, r, client, conn, e, routes) == Registered(Without(t, r.name), r, client, conn, e, routes)
  {
    OthersMembers(t.runtime, r.name);
    IndexOfFresh(Others(t.runtime, r.name), r.name);
  }

  /** An HTTP proxy can be left out without anything else being disturbed but the use of its entry. */
  lemma WithoutConsistent(t: Tables, name: string)
    requires Sound(t) && forall q :: q in t.runtime && q.name == name ==> q.ptype.Http?
    ensures Consistent(Without(t, name))
  {
    hide Build, RoutesAt, EntryPort, EntryName, Dropped;
    var i := IndexOf(t.runtime, name);
    WithoutNames(t, name);
    if i < |t.runtime| {
      assert t.runtime[i] in t.runtime;
      RemovedRoutes(t.config, t.runtime, i);
      WithoutOwn(t, i);
      WithoutSockets(t, i);
    }
  }

  lemma WithoutNames(t: Tables, name: string)
    requires Bookkeeping(t) && AllPlaced(t) && Located(t)
    ensures Bookkeeping(Without(t, name)) && AllPlaced(Without(t, name)) && Located(Without(t, name))
  {
    hide EntryPort, EntryName, Others;
    OthersMembers(t.runtime, name);
    var u := Without(t, name);
    forall n ensures Barred(u, n) <==> Barred(t, n) {}
    forall q | q in u.runtime ensures Placed(u, q) { assert q in t.runtime && Placed(t, q); }
  }

  lemma WithoutOwn(t: Tables, i: nat)
    requires ProxyNamesApart(t) && OwnUsed(t) && i < |t.runtime| && t.runtime[i].ptype.Http?
    ensures OwnUsed(t.(runtime := Dropped(t.runtime, i)))
  {
    var u := t.(runtime := Dropped(t.runtime, i));
    forall n | !Canonical(n) ensures n in u.guestLns <==> ConfigStream(u.config, n) || StreamOf(u.runtime, n) {
      StreamsAfterDrop(t.runtime, i, n);
    }
  }

  lemma WithoutSockets(t: Tables, i: nat)
    requires ProxyNamesApart(t) && SocketsOwned(t) && i < |t.runtime| && t.runtime[i].ptype.Http?
    ensures SocketsOwned(t.(runtime := Dropped(t.runtime, i)))
  {
    var u := t.(runtime := Dropped(t.runtime, i));
    DroppedMembers(t.runtime, i);
    forall s ensures UdpOn(u.runtime, s) <==> UdpOn(t.runtime, s) {
      if UdpOn(t.runtime, s) {
        var q :| q in t.runtime && q.ptype.Udp? && q.socket == s;
        if q.name == t.runtime[i].name { SameName(t.runtime, q, t.runtime[i]); }
      }
    }
  }

  lemma EnteredNames(t: Tables, u: Tables, x: Runtime)
    requires Bookkeeping(t) && Entered(t, u, x) && Unused(t, x.name) && NameFits(t, x.name, x.ptype)
    requires x.name !in AllNames(t.config)
    ensures Bookkeeping(u)
  {
    forall i, j | 0 <= i < j < |u.runtime| ensures u.runtime[i].name != u.runtime[j].name {
      assert u.runtime[i] == t.runtime[i];
      if j < |t.runtime| { assert u.runtime[j] == t.runtime[j]; } else { assert t.runtime[i] in t.runtime; }
    }
  }

  lemma NameIsFree(t: Tables, name: string)
    requires Bookkeeping(t) && OwnUsed(t) && Unused(t, name) && (Canonical(name) ==> Barred(t, name))
    ensures name !in t.guestLns
  {
    ConfigStreamNamed(t.config, name);
  }

  /** Entering `x` in place of the proxies of its name keeps shared entries in use exactly if those of
      the replaced proxies are. */
  lemma EnteredShared(t: Tables, u: Tables, x: Runtime)
    requires OneNameEach(t.runtime) && SharedUsed(t) && Entered(Without(t, x.name), u, x)
    requires IsStream(x.ptype) ==> !Canonical(x.name)
    requires forall q :: q in t.runtime && q.name == x.name && q.ptype.Http? ==> Uses(u.config, u.runtime, q.entryName)
    ensures SharedUsed(u)
  {
    OthersMembers(t.runtime, x.name);
    assert x in u.runtime;
    forall n | Canonical(n) ensures n in u.guestLns <==> Uses(u.config, u.runtime, n) {
      UsesEntered(t, u, x, n);
    }
  }

  lemma UsesEntered(t: Tables, u: Tables, x: Runtime, n: string)
    requires OneNameEach(t.runtime) && Entered(Without(t, x.name), u, x)
    ensures Uses(u.config, u.runtime, n) <==>
            Uses(t.config, Others(t.runtime, x.name), n) || (x.ptype.Http? && x.entryName == n)
    ensures Uses(t.config, t.runtime, n) <==>
            Uses(t.config, Others(t.runtime, x.name), n) ||
            (exists q :: q in t.runtime && q.name == x.name && q.ptype.Http? && q.entryName == n)
  {
    OthersMembers(t.runtime, x.name);
    assert x in u.runtime;
  }

  lemma EnteredOwn(t: Tables, u: Tables, x: Runtime)
    requires OwnUsed(t) && Entered(t, u, x)
    ensures OwnUsed(u)
  {
    assert x in u.runtime;
    forall n | !Canonical(n) ensures n in u.guestLns <==> ConfigStream(u.config, n) || StreamOf(u.runtime, n) {
      assert StreamOf(u.runtime, n) <==> StreamOf(t.runtime, n) || (IsStream(x.ptype) && x.name == n);
    }
  }

  lemma EnteredPlaced(t: Tables, u: Tables, x: Runtime)
    requires AllPlaced(t) && Entered(t, u, x) && x.name !in t.guestLns
    ensures AllPlaced(u)
  {
    hide Build, Merged, EntryPort;
    forall q | q in u.runtime ensures Placed(u, q) {
      if q != x { assert q in t.runtime && Placed(t, q); }
    }
  }

  lemma EnteredSockets(t: Tables, u: Tables, x: Runtime)
    requires SocketsOwned(t) && Entered(t, u, x) && x.name !in t.guestLns
    ensures SocketsOwned(u)
  {
    assert x in u.runtime;
    forall s ensures UdpOn(u.runtime, s) <==> UdpOn(t.runtime, s) || (x.ptype.Udp? && x.socket == s) {}
    EnteredValues(t, u, x);
  }

  lemma EnteredValues(t: Tables, u: Tables, x: Runtime)
    requires Entered(t, u, x) && x.name !in t.guestLns
    ensures u.guestLns.Values == t.guestLns.Values + if x.ptype.Udp? then {} else {x.socket}
  {
    forall s | s in t.guestLns.Values ensures s in u.guestLns.Values {
      var n :| n in t.guestLns && t.guestLns[n] == s;
      assert u.guestLns[n] == s;
    }
    if x.ptype.Http? { assert u.guestLns[x.entryName] == x.socket; }
    if IsStream(x.ptype) { assert u.guestLns[x.name] == x.socket; }
  }

  lemma RoutesWith(c: seq<Route>, rs: seq<Runtime>, x: Runtime, p: int)
    ensures c + RoutesAt(rs + [x], p) == c + RoutesAt(rs, p) +
            if x.ptype.Http? && EntryPort(x.entryName) == Some(p) then x.routes else []
  {
    var own := if x.ptype.Http? && EntryPort(x.entryName) == Some(p) then x.routes else [];
    assert (rs + [x])[..|rs + [x]| - 1] == rs;
    assert RoutesAt(rs + [x], p) == RoutesAt(rs, p) + own;
    assert c + (RoutesAt(rs, p) + own) == c + RoutesAt(rs, p) + own;
  }

  lemma EnteredRoutes(t: Tables, u: Tables, x: Runtime)
    requires RoutesBuild(t.config, t.runtime) && Entered(t, u, x)
    ensures RoutesBuild(u.config, u.runtime)
  {
    forall p ensures Build(PortRoutes(u.config.http, p) + RoutesAt(u.runtime, p)).Some? {
      RoutesWith(PortRoutes(t.config.http, p), t.runtime, x, p);
      assert PortRoutes(t.config.http, p) + RoutesAt(t.runtime, p) + []
          == PortRoutes(t.config.http, p) + RoutesAt(t.runtime, p);
    }
  }

  lemma RegisteredLocated(t: Tables, r: Request, client: string, conn: nat, e: Entry, routes: seq<Route>)
    requires Bookkeeping(t) && OwnUsed(t) && Located(t) && Fitting(t, r, e, routes)
    ensures Located(Registered(t, r, client, conn, e, routes))
  {
    NameIsFree(t, r.name);
    assert r.ptype.value.Http? ==> e.name != r.name;
    AddressesStay(t, r, client, conn, e, routes);
  }

  lemma AddressesStay(t: Tables, r: Request, client: string, conn: nat, e: Entry, routes: seq<Route>)
    requires Located(t) && r.ptype.Some? && !e.Unavailable? && r.name !in t.guestLns
    requires e.Existing? ==> e.name in t.guestLns
    requires r.ptype.value.Http? ==> e.name != r.name && (e.Created? ==> Some(e.port) == EntryPort(e.name))
    requires IsStream(r.ptype.value) ==> !Canonical(r.name)
    ensures Located(Registered(t, r, client, conn, e, routes))
  {
    hide EntryPort, EntryName, Put, Canonical;
  }

  lemma RegisteredKnown(t: Tables, r: Request, client: string, conn: nat, e: Entry, routes: seq<Route>)
    requires AddressesKnown(t) && OneNameEach(t.runtime) && r.ptype.Some? && !e.Unavailable? && Addressed(t)
    requires (e.Existing? ==> e.name in t.guestLns) && (e.Created? ==> ValidPort(e.port))
    ensures AddressesKnown(Registered(t, r, client, conn, e, routes))
  {
    var u := Registered(t, r, client, conn, e, routes);
    OthersMembers(t.runtime, r.name);
    assert u.runtime[|u.runtime| - 1] in u.runtime && u.runtime[|u.runtime| - 1].name == r.name;
    forall m | m in u.guestAddr
      ensures ValidPort(u.guestAddr[m]) && (m in u.guestLns || m in AllNames(u.config) || LiveName(u.runtime, m))
    {
      if m != r.name && LiveName(t.runtime, m) {
        var q :| q in t.runtime && q.name == m;
        assert q in Others(t.runtime, r.name) && q in u.runtime;
      }
    }
  }

  /** A safe registration, once accepted, keeps all of it. */
  lemma SafeKeeps(t: Tables, r: Request, client: string, conn: nat, pick: Option<nat>, bound: Option<int>)
    requires Sound(t) && Possible(t, r, pick, bound) && Safe(t, r, pick)
    requires NewProxy(t, r, client, conn, pick, bound).1.None?
    ensures Sound(NewProxy(t, r, client, conn, pick, bound).0)
  {
    AcceptedFits(t, r, client, conn, pick, bound);
    AcceptedIsRegistered(t, r, client, conn, pick, bound);
    var e, routes := OpenEntry(t, r, pick, bound), RuntimeHTTPRoutes(r).value;
    var base, x := Without(t, r.name), Newcomer(t, r, client, conn, e, routes);
    RegisteredReplaces(t, r, client, conn, e, routes);
    WithoutConsistent(t, r.name);
    RegisteredEnters(base, r, client, conn, e, routes);
    RegisteredLocated(base, r, client, conn, e, routes);
    RegisteredKnown(t, r, client, conn, e, routes);
    var u := Registered(base, r, client, conn, e, routes);
    ReplacedAreUsed(t, r, pick, u, x);
    EnteredShared(t, u, x);
    EnteredConsistent(base, u, x);
  }

  lemma ReplacedAreUsed(t: Tables, r: Request, pick: Option<nat>, u: Tables, x: Runtime)
    requires CanPick(t, pick) && OneNameEach(t.runtime) && AllReplaceable(t, r, pick)
    requires Entered(Without(t, x.name), u, x) && x.name == r.name && r.ptype == Some(x.ptype)
    requires r.ptype == Some(Http) && (r.remotePort > 0 || pick.Some?) ==> x.entryName == EntryKey(t, r, pick)
    ensures forall q :: q in t.runtime && q.name == x.name && q.ptype.Http? ==> Uses(u.config, u.runtime, q.entryName)
  {
    forall q | q in t.runtime && q.name == x.name && q.ptype.Http? ensures Uses(u.config, u.runtime, q.entryName) {
      assert Replaceable(t, r, pick, q);
      UsesEntered(t, u, x, q.entryName);
    }
  }

  lemma EnteredConsistent(t: Tables, u: Tables, x: Runtime)
    requires Consistent(t) && Entered(t, u, x) && Located(u)
    requires Unused(t, x.name) && NameFits(t, x.name, x.ptype) && x.name !in AllNames(t.config)
    ensures Consistent(u)
  {
    NameIsFree(t, x.name);
    EnteredNames(t, u, x);
    EnteredOwn(t, u, x);
    EnteredPlaced(t, u, x);
    EnteredSockets(t, u, x);
    EnteredRoutes(t, u, x);
  }

  lemma AcceptedIsRegistered(t: Tables, r: Request, client: string, conn: nat, pick: Option<nat>, bound: Option<int>)
    requires CanPick(t, pick) && Addressed(t) && NewProxy(t, r, client, conn, pick, bound).1.None?
    ensures r.ptype.Some? && RuntimeHTTPRoutes(r).Some? && r.name !in t.registry
    ensures !OpenEntry(t, r, pick, bound).Unavailable?
    ensures NewProxy(t, r, client, conn, pick, bound).0 ==
            Registered(t, r, client, conn, OpenEntry(t, r, pick, bound), RuntimeHTTPRoutes(r).value)
  {}

  /** A refused registration leaves the tables alone; at most a socket id has been used up. */
  lemma RefusedIsSame(t: Tables, r: Request, client: string, conn: nat, pick: Option<nat>, bound: Option<int>)
    requires CanPick(t, pick) && Addressed(t) && NewProxy(t, r, client, conn, pick, bound).1.Some?
    ensures var u := NewProxy(t, r, client, conn, pick, bound).0; u == t || u == t.(next := t.next + 1)
  {
    if r.ptype.Some? && RuntimeHTTPRoutes(r).Some? {
      OpenedIsSame(t, r, client, conn, pick, bound, RuntimeHTTPRoutes(r).value);
    }
  }

  lemma OpenedIsSame(t: Tables, r: Request, client: string, conn: nat, pick: Option<nat>, bound: Option<int>,
                     routes: seq<Route>)
    requires CanPick(t, pick) && Addressed(t) && r.ptype.Some?
    ensures var (u, refused) := OpenedProxy(t, r, client, conn, pick, bound, routes);
            refused.Some? ==> u == t || u == t.(next := t.next + 1)
  {}

  /** A socket id used up changes nothing. */
  lemma BooksLater(t: Tables)
    requires Bookkeeping(t) && AddressesKnown(t)
    ensures Bookkeeping(t.(next := t.next + 1)) && AddressesKnown(t.(next := t.next + 1))
  {
    hide EntryPort, EntryName, Canonical, ConfigExclusive, OneNameEach, LiveName;
    var u := t.(next := t.next + 1);
    assert forall n :: Barred(u, n) <==> Barred(t, n);
  }

  lemma WorkingLater(t: Tables)
    requires Working(t)
    ensures Working(t.(next := t.next + 1))
  {
    hide EntryPort, EntryName, Canonical, Uses, ConfigStream, StreamOf, UdpOn, OneEach, RoutesBuild;
  }

  lemma RefusedKeeps(t: Tables, r: Request, client: string, conn: nat, pick: Option<nat>, bound: Option<int>)
    requires Sound(t) && CanPick(t, pick) && NewProxy(t, r, client, conn, pick, bound).1.Some?
    ensures Sound(NewProxy(t, r, client, conn, pick, bound).0)
  {
    assert Addressed(t);
    hide NewProxy, Bookkeeping, AddressesKnown, Working;
    RefusedIsSame(t, r, client, conn, pick, bound);
    BooksLater(t);
    WorkingLater(t);
  }

  /** The entries of the configuration listen on its ports. */
  predicate ConfigAddresses(t: Tables) {
    && (forall m :: m in t.guestAddr ==> ValidPort(t.guestAddr[m]) && (m in t.guestLns || m in AllNames(t.config)))
    && (forall b :: b in t.config.tcp + t.config.udp + t.config.https && b.name in t.guestAddr ==>
          t.guestAddr[b.name] == b.port)
  }

  /** A generation just started: the entries of its configuration, no runtime proxy, and a table for
      every port. */
  ghost predicate Started(t: Tables) {
    && t.runtime == [] && Valid(t.config) && OneEach(t.guestLns) && Located(t) && ConfigAddresses(t)
    && (forall n :: n in t.guestLns <==>
          ConfigStream(t.config, n) || exists b :: b in t.config.http && EntryName(b.port) == n)
    && t.open == t.guestLns.Values && (forall s :: s in t.open ==> s < t.next)
    && (forall n :: n in AllNames(t.config) ==> n in t.registry)
    && forall p :: Build(PortRoutes(t.config.http, p)).Some?
  }

  lemma StartedSound(t: Tables)
    requires Started(t)
    ensures Sound(t)
  {
    StartedNames(t);
    StartedPortsClear(t);
    forall n | ConfigStream(t.config, n) ensures !Canonical(n) {
      ConfigStreamNamed(t.config, n);
      if Canonical(n) {
        CanonicalHasColon(n);
        assert false;
      }
    }
    forall b | b in t.config.http ensures Canonical(EntryName(b.port)) { PortIsCanonical(b.port); }
    forall p ensures Build(PortRoutes(t.config.http, p) + RoutesAt(t.runtime, p)).Some? {
      assert PortRoutes(t.config.http, p) + [] == PortRoutes(t.config.http, p);
    }
  }

  /** The ports of a valid configuration are apart, so none of its HTTP entries is barred. */
  lemma StartedPortsClear(t: Tables)
    requires Started(t)
    ensures PortsClear(t)
  {
    forall n | n in t.guestLns && Canonical(n) ensures !Barred(t, n) {
      var h := StartedEntry(t, n);
      forall m | m in t.guestAddr && ConfigExclusive(t.config, m) ensures t.guestAddr[m] != h.port {
        var b := ExclusiveBinding(t.config, m);
        assert b.port != h.port;
      }
    }
  }

  lemma StartedEntry(t: Tables, n: string) returns (h: HttpBinding)
    requires Started(t) && n in t.guestLns && Canonical(n)
    ensures h in t.config.http && EntryPort(n) == Some(h.port)
  {
    CanonicalHasColon(n);
    if ConfigStream(t.config, n) {
      ConfigStreamNamed(t.config, n);
      NameHasNoColon(t.config, n);
      assert false;
    }
    h :| h in t.config.http && EntryName(h.port) == n;
    PortIsCanonical(h.port);
  }

  lemma ExclusiveBinding(config: ServerConfig, m: string) returns (b: Binding)
    requires ConfigExclusive(config, m)
    ensures b in config.tcp + config.udp + config.https && b.name == m
  {
    assert m !in HttpNames(config.http);
    if m in Names(config.tcp) {
      b := Named(config.tcp, m);
    } else if m in Names(config.udp) {
      b := Named(config.udp, m);
    } else {
      b := Named(config.https, m);
    }
  }

  lemma Named(bindings: seq<Binding>, m: string) returns (b: Binding)
    requires m in Names(bindings)
    ensures b in bindings && b.name == m
  {
    var i :| 0 <= i < |bindings| && Names(bindings)[i] == m;
    b := bindings[i];
  }

  lemma StartedNames(t: Tables)
    requires Started(t)
    ensures ProxyNamesApart(t)
  {
    forall n | n in AllNames(t.config) ensures ':' !in n { NameHasNoColon(t.config, n); }
  }

  // The tables in place.

  class Generation {
    const config: ServerConfig
    var runtime: seq<Runtime>
    var guestLns: map<string, Socket>
    var guestAddr: map<string, int>
    var registry: set<string>
    var open: set<Socket>
    var next: Socket
    /** The routing tables published for the ports. */
    var httpRoutes: map<int, seq<Route>>

    ghost function Model(): Tables
      reads this
    {
      Tables(config, runtime, guestLns, guestAddr, registry, open, next)
    }

    constructor (t: Tables)
      ensures Model() == t && httpRoutes == map[]
    {
      config, runtime, guestLns, guestAddr := t.config, t.runtime, t.guestLns, t.guestAddr;
      registry, open, next, httpRoutes := t.registry, t.open, t.next, map[];
    }

    /** A port has a table exactly if it has routes to serve and they do not collide. */
    ghost predicate Routed()
      reads this
    {
      forall p :: (p in httpRoutes <==> p in Ports(config, runtime) && Build(Merged(Model(), p)).Some?) &&
                  (p in httpRoutes ==> Some(httpRoutes[p]) == Build(Merged(Model(), p)))
    }

    method CheckRuntimeProxyConflicts(name: string, http: bool, port: int, routes: seq<Route>)
      returns (c: Option<Rejection>)
      ensures c == Conflicts(Model(), name, http, port, routes)
    {
      if name in registry {
        return Some(NameConflict);
      }
      var t := Tables(config, runtime, guestLns, guestAddr, registry, open, next);
      if exists n :: n in guestAddr && guestAddr[n] == Port16(port) &&
                     !(http && (HTTP_ENTRY_PREFIX <= n || IsHTTPProxyName(t, n))) {
        return Some(PortConflict);
      }
      if http {
        var router := NewHTTPRouter(Merged(t, port) + routes);
        if router.None? {
          return Some(PortConflict);
        }
      }
      return None;
    }

    /** Rebuilds the table of every port; a port whose routes collide gets none. */
    method RebuildHTTPRoutes()
      modifies this`httpRoutes
      ensures Routed()
    {
      var t := Tables(config, runtime, guestLns, guestAddr, registry, open, next);
      var left := Ports(config, runtime);
      var routes := map[];
      while left != {}
        invariant left <= Ports(config, runtime)
        invariant forall p :: p in routes <==> p in Ports(config, runtime) - left && Build(Merged(t, p)).Some?
        invariant forall p :: p in routes ==> Some(routes[p]) == Build(Merged(t, p))
        decreases |left|
      {
        var p :| p in left;
        var router := NewHTTPRouter(Merged(t, p));
        if router.Some? {
          routes := routes[p := router.value];
        }
        left := left - {p};
      }
      httpRoutes := routes;
    }

    /** Registers a proxy, or says why not; `pick` and `bound` are what the table walk and the
        operating system come up with. */
    method HandleNewProxy(r: Request, client: string, conn: nat, pick: Option<nat>, bound: Option<int>)
      returns (refused: Option<Rejection>)
      requires CanPick(Model(), pick) && Addressed(Model()) && Routed()
      modifies this
      ensures (Model(), refused) == NewProxy(old(Model()), r, client, conn, pick, bound) && Routed()
    {
      if r.name == "" {
        return Some(FieldInvalid);
      }
      if r.ptype.None? {
        return Some(TypeUnsupported);
      }
      var routes := RuntimeHTTPRoutes(r);
      if !PortAllowed(r) || routes.None? {
        return Some(FieldInvalid);
      }
      refused := CheckRuntimeProxyConflicts(r.name, r.ptype == Some(Http), r.remotePort, routes.value);
      if refused.None? {
        refused := OpenAndRegister(r, client, conn, pick, bound, routes.value);
      }
    }

    method OpenAndRegister(r: Request, client: string, conn: nat, pick: Option<nat>, bound: Option<int>,
                           routes: seq<Route>)
      returns (refused: Option<Rejection>)
      requires CanPick(Model(), pick) && Addressed(Model()) && Routed() && r.ptype.Some?
      modifies this
      ensures (Model(), refused) == OpenedProxy(old(Model()), r, client, conn, pick, bound, routes) && Routed()
    {
      var t := Tables(config, runtime, guestLns, guestAddr, registry, open, next);
      var e := OpenEntry(t, r, pick, bound);
      if e.Unavailable? {
        return Some(PortConflict);
      }
      refused := CheckRuntimeProxyConflicts(r.name, r.ptype == Some(Http), FinalPort(t, r, e), routes);
      if refused.None? {
        Register(r, client, conn, e, routes);
        RebuildHTTPRoutes();
      } else if e.Created? {
        // The socket just bound is closed again.
        next := next + 1;
      }
    }

    method Register(r: Request, client: string, conn: nat, e: Entry, routes: seq<Route>)
      requires r.ptype.Some? && !e.Unavailable? && Addressed(Model()) && (e.Existing? ==> e.name in guestLns)
      modifies this`runtime, this`guestLns, this`guestAddr, this`registry, this`open, this`next
      ensures Model() == Registered(old(Model()), r, client, conn, e, routes)
    {
      var socket, port;
      if e.Existing? {
        socket, port := e.socket, guestAddr[e.name];
      } else if r.ptype == Some(Http) && e.name in guestLns {
        socket, port, next := guestLns[e.name], guestAddr[e.name], next + 1;
      } else {
        socket, port, open, next := next, e.port, open + {next}, next + 1;
      }
      runtime := Put(runtime, Runtime(r.name, client, conn, r.ptype.value, e.name, socket, routes));
      registry := registry + {r.name};
      if r.ptype == Some(Http) {
        if e.name !in guestLns {
          guestLns, guestAddr := guestLns[e.name := socket], guestAddr[e.name := port];
        }
      } else if r.ptype != Some(Udp) {
        guestLns := guestLns[r.name := socket];
      }
      guestAddr := guestAddr[r.name := port];
    }

    /** Closing by the client that registered the proxy; anyone else is ignored. */
    method HandleCloseProxy(client: string, name: string)
      requires Routed()
      modifies this
      ensures Model() == CloseProxy(old(Model()), client, name) && Routed()
    {
      var i := IndexOf(runtime, name);
      if name == "" || i == |runtime| || runtime[i].client != client {
        return;
      }
      var entry := runtime[i];
      Remove(i);
      if entry.ptype != Http {
        guestLns := guestLns - {name};
      }
      registry := registry - {name};
      RebuildHTTPRoutes();
    }

    method Remove(i: nat)
      requires i < |runtime|
      modifies this`runtime, this`guestLns, this`guestAddr, this`open
      ensures Model() == Removed(old(Model()), i)
    {
      var r := runtime[i];
      runtime := runtime[..i] + runtime[i + 1..];
      guestAddr := guestAddr - {r.name};
      match r.ptype {
        case Udp =>
          open := open - {r.socket};
        case Http =>
          if !HasUsers(config, runtime, r.entryName) {
            guestLns, guestAddr := guestLns - {r.entryName}, guestAddr - {r.entryName};
            open := open - {r.socket};
          }
        case _ =>
          guestLns := guestLns - {r.name};
          open := open - {r.socket};
      }
    }

    /** The end of a session takes all its proxies along. */
    method CleanupForConn(conn: nat)
      requires Routed()
      modifies this
      ensures Model() == Cleanup(old(Model()), conn) && Routed()
    {
      if FirstOf(runtime, conn) == |runtime| {
        return;
      }
      while FirstOf(runtime, conn) < |runtime|
        invariant AllRemoved(Model(), conn) == AllRemoved(old(Model()), conn)
        invariant registry == old(registry)
        decreases |runtime|
      {
        Remove(FirstOf(runtime, conn));
      }
      registry := registry - Live(runtime);
      RebuildHTTPRoutes();
    }
  }

  /** The ports that have HTTP proxies. */
  function Ports(config: ServerConfig, runtime: seq<Runtime>): set<int> {
    (set b | b in config.http :: b.port) +
    (set r | r in runtime && r.ptype.Http? && EntryPort(r.entryName).Some? :: EntryPort(r.entryName).value)
  }
}
