/** Replacing a running server configuration without closing the listening sockets that stay. */
module HotSwap {
  import opened Wrappers
  import opened Validation
  import opened EntryNames

  type Socket = nat

  datatype Host = Unspecified | Specific(ip: nat)

  datatype Addr = Addr(host: Host, port: int)

  /** Two listening addresses that mean the same interfaces; a wildcard covers all. */
  predicate Overlap(a: Addr, b: Addr) {
    a.port == b.port && (a.host.Unspecified? || b.host.Unspecified? || a.host == b.host)
  }

  /** A visitor who connects to `ip` on `port` gets to a socket listening at `a`. */
  predicate Reaches(a: Addr, ip: nat, port: int) { a.port == port && (a.host == Unspecified || a.host == Specific(ip)) }

  /** Two addresses overlap if and only if some visitor would get to either. */
  lemma OverlapIsShared(a: Addr, b: Addr)
    ensures Overlap(a, b) <==> exists ip, port :: Reaches(a, ip, port) && Reaches(b, ip, port)
  {
    if Overlap(a, b) {
      var ip := if a.host.Specific? then a.host.ip else if b.host.Specific? then b.host.ip else 0;
      assert Reaches(a, ip, a.port) && Reaches(b, ip, a.port);
    }
  }

  datatype Snapshot = Snapshot(config: ServerConfig, host: Host, udpParams: nat)

  /** The operating system's sockets. An id is never used twice. */
  class Net {
    var open: set<Socket>
    var closed: set<Socket>
    /** Sockets with an accept loop on them. */
    var accepting: set<Socket>
    var addr: map<Socket, Addr>
    var next: Socket
    /** How often binding was tried, and which attempts the operating system refuses. */
    var attempts: nat
    const refuses: nat -> bool

    ghost predicate Valid()
      reads this
    {
      && (forall s: Socket :: s in open || s in closed <==> s < next)
      && open !! closed && accepting <= open && open <= addr.Keys
      && forall s: Socket :: s in addr ==> s < next
    }

    /** One of the attempts from the first number up to the second was refused. */
    ghost predicate Refused(from: nat, to: nat) { exists k :: from <= k < to && refuses(k) }

    constructor (refuses: nat -> bool)
      ensures Valid() && open == {} && accepting == {} && next == 0 && this.refuses == refuses
    {
      open, closed, accepting, addr, next, attempts := {}, {}, {}, map[], 0, 0;
      this.refuses := refuses;
    }

    /** Binding may fail for reasons of its own. */
    method Listen(a: Addr) returns (s: Option<Socket>)
      requires Valid()
      modifies this
      ensures Valid() && closed == old(closed) && accepting == old(accepting)
      ensures attempts == old(attempts) + 1 && (s.None? <==> refuses(old(attempts)))
      ensures s.None? ==> open == old(open) && next == old(next) && addr == old(addr)
      ensures s.Some? ==> s.value == old(next) && next == old(next) + 1 && open == old(open) + {s.value}
      ensures s.Some? ==> addr == old(addr)[s.value := a]
    {
      attempts := attempts + 1;
      if refuses(attempts - 1) {
        return None;
      }
      s := Some(next);
      open, addr, next := open + {next}, addr[next := a], next + 1;
    }

    /** Closing a closed socket is not possible here. */
    method Close(s: Socket)
      requires Valid() && s in open
      modifies this`open, this`closed, this`accepting
      ensures Valid() && open == old(open) - {s} && accepting == old(accepting) - {s}
    {
      open, closed, accepting := open - {s}, closed + {s}, accepting - {s};
    }

    /** Two accept loops on one socket are not possible here. */
    method StartAccept(s: Socket)
      requires Valid() && s in open && s !in accepting
      modifies this`accepting
      ensures Valid() && accepting == old(accepting) + {s}
    {
      accepting := accepting + {s};
    }

    method StopAccept(s: Socket)
      requires Valid()
      modifies this`accepting
      ensures Valid() && accepting == old(accepting) - {s}
    {
      accepting := accepting - {s};
    }
  }

  predicate Injective(m: map<string, Socket>) {
    forall a, b :: a in m && b in m && m[a] == m[b] ==> a == b
  }

  function Sockets(m: map<string, Socket>): set<Socket> { m.Values }

  /** The sockets of all names but the kept ones. */
  function Others(m: map<string, Socket>, keep: set<string>): set<Socket> {
    set name | name in m && name !in keep :: m[name]
  }

  method CloseAllBut(net: Net, m: map<string, Socket>, keep: set<string>)
    requires net.Valid() && Injective(m) && Others(m, keep) <= net.open
    modifies net`open, net`closed, net`accepting
    ensures net.Valid() && net.open == old(net.open) - Others(m, keep)
    ensures net.accepting == old(net.accepting) - Others(m, keep)
  {
    var left := m.Keys - keep;
    while left != {}
      invariant left <= m.Keys - keep && net.Valid()
      invariant old(net.open) - Others(m, keep) <= net.open <= old(net.open)
      invariant old(net.accepting) - Others(m, keep) <= net.accepting <= old(net.accepting)
      invariant forall n :: n in m && n !in keep ==> (n in left <==> m[n] in net.open)
      decreases |left|
    {
      var name := Pick(left);
      net.Close(m[name]);
      left := left - {name};
    }
  }

  function BindAddr(s: Snapshot, port: int): Addr { Addr(s.host, port) }

  /** An entry that keeps its name and address keeps its socket. */
  predicate Reusable(before: map<string, Socket>, addr: map<Socket, Addr>, name: string, wanted: Addr) {
    name in before && before[name] in addr && Overlap(addr[before[name]], wanted)
  }

  /** What opening entries one after another keeps: `m` so far, `reused` of it taken over from
      `before`; everything else in it is open and new. */
  ghost predicate Opening(m: map<string, Socket>, reused: set<string>, before: map<string, Socket>,
                          start: set<Socket>, now: set<Socket>)
  {
    && Injective(m) && reused <= m.Keys
    && (forall n :: n in reused ==> n in before && m[n] == before[n])
    && (forall n :: n in m && n !in reused ==> m[n] !in start)
    && now == start + Others(m, reused)
  }

  lemma OpeningReused(m: map<string, Socket>, reused: set<string>, before: map<string, Socket>,
                      start: set<Socket>, now: set<Socket>, name: string)
    requires Opening(m, reused, before, start, now) && name !in m
    requires Injective(before) && before.Values <= start && name in before
    ensures Opening(m[name := before[name]], reused + {name}, before, start, now)
  {
    var m' := m[name := before[name]];
    forall n | n in m ensures m[n] != before[name] {
      if n !in reused { assert before[name] in before.Values; }
    }
    assert Others(m', reused + {name}) == Others(m, reused);
  }

  lemma OpeningNew(m: map<string, Socket>, reused: set<string>, before: map<string, Socket>,
                   start: set<Socket>, now: set<Socket>, name: string, s: Socket)
    requires Opening(m, reused, before, start, now) && name !in m && s !in now
    requires before.Values <= start
    ensures Opening(m[name := s], reused, before, start, now + {s})
  {
    var m' := m[name := s];
    forall n | n in m ensures m[n] != s {
      if n in reused { assert m[n] in before.Values; } else { assert m[n] in Others(m, reused); }
    }
    assert m'[name] == s && name !in reused;
    assert Others(m', reused) == Others(m, reused) + {s};
  }

  /** The socket a name got is the old one if it could be taken over, and a new one otherwise. */
  predicate Handed(m: map<string, Socket>, before: map<string, Socket>, addr: map<Socket, Addr>, unused: Socket,
                   name: string, wanted: Addr)
  {
    name in m && if Reusable(before, addr, name, wanted) then m[name] == before[name] else m[name] >= unused
  }

  predicate Extends(before: map<Socket, Addr>, after: map<Socket, Addr>) {
    forall s: Socket :: s in before ==> s in after && after[s] == before[s]
  }

  datatype Want = Want(name: string, addr: Addr)

  /** What preparing a generation works with: the sockets open when it began, the entries then in
      use, and the first socket id not yet used. */
  datatype Base = Base(start: set<Socket>, all: map<string, Socket>, unused: Socket)

  ghost predicate Preparing(net: Net, base: Base, m: map<string, Socket>, reused: set<string>)
    reads net
  {
    && net.Valid() && base.unused <= net.next
    && Injective(base.all) && base.all.Values <= base.start && (forall s: Socket :: s in base.start ==> s < base.unused)
    && Opening(m, reused, base.all, base.start, net.open)
  }

  /** Opens one stream entry, or takes it over. */
  method TakeStream(net: Net, w: Want, before: map<string, Socket>, m0: map<string, Socket>, reused0: set<string>,
                    ghost base: Base)
    returns (ok: bool, m: map<string, Socket>, reused: set<string>)
    requires Preparing(net, base, m0, reused0) && w.name !in m0
    requires w.name in before ==> w.name in base.all && base.all[w.name] == before[w.name]
    modifies net
    ensures Preparing(net, base, m, reused)
    ensures net.closed == old(net.closed) && net.accepting == old(net.accepting) && Extends(old(net.addr), net.addr)
    ensures ok ==> Handed(m, before, old(net.addr), base.unused, w.name, w.addr) && m == m0[w.name := m[w.name]]
    ensures ok ==> reused == if Reusable(before, old(net.addr), w.name, w.addr) then reused0 + {w.name} else reused0
    ensures ok ==> ListensOn(m, net.addr, base.unused, w)
    ensures !ok ==> m == m0 && reused == reused0
    ensures net.attempts >= old(net.attempts) && (ok <==> !net.Refused(old(net.attempts), net.attempts))
  {
    if w.name in before && before[w.name] in net.addr && Overlap(net.addr[before[w.name]], w.addr) {
      OpeningReused(m0, reused0, base.all, base.start, net.open, w.name);
      assert before[w.name] in base.all.Values;
      return true, m0[w.name := before[w.name]], reused0 + {w.name};
    }
    var s := net.Listen(w.addr);
    if s.None? {
      return false, m0, reused0;
    }
    OpeningNew(m0, reused0, base.all, base.start, old(net.open), w.name, s.value);
    return true, m0[w.name := s.value], reused0;
  }

  function NamesOf(wants: seq<Want>): set<string> { set w | w in wants :: w.name }

  predicate AllHanded(m: map<string, Socket>, before: map<string, Socket>, addr: map<Socket, Addr>, unused: Socket,
                      wants: seq<Want>)
  {
    forall w :: w in wants ==> Handed(m, before, addr, unused, w.name, w.addr)
  }

  lemma HandedStays(m: map<string, Socket>, m': map<string, Socket>, before: map<string, Socket>,
                    addr: map<Socket, Addr>, addr': map<Socket, Addr>, unused: Socket, wants: seq<Want>, w: Want)
    requires AllHanded(m, before, addr, unused, wants)
    requires w.name in m' && m' == m[w.name := m'[w.name]] && w.name !in m
    requires before.Values <= addr.Keys && Extends(addr, addr')
    requires Handed(m', before, addr', unused, w.name, w.addr)
    ensures AllHanded(m', before, addr, unused, wants + [w])
  {
    forall x | x in wants + [w] ensures Handed(m', before, addr, unused, x.name, x.addr) {
      if x in wants { assert x.name in m; }
    }
    if w.name in before { assert before[w.name] in before.Values; }
  }

  /** An entry has a socket whose address overlaps the one wanted; a new socket, the very address. */
  predicate ListensOn(m: map<string, Socket>, addr: map<Socket, Addr>, unused: Socket, w: Want) {
    Reusable(m, addr, w.name, w.addr) && (m[w.name] >= unused ==> addr[m[w.name]] == w.addr)
  }

  /** Every entry wanted is there and listens on its address. */
  predicate Listening(m: map<string, Socket>, addr: map<Socket, Addr>, unused: Socket, wants: seq<Want>) {
    forall w :: w in wants ==> ListensOn(m, addr, unused, w)
  }

  lemma ListeningStays(m: map<string, Socket>, m': map<string, Socket>, addr: map<Socket, Addr>,
                       addr': map<Socket, Addr>, unused: Socket, wants: seq<Want>, w: Want)
    requires Listening(m, addr, unused, wants) && Extends(addr, addr')
    requires w.name in m' && m' == m[w.name := m'[w.name]] && w.name !in m && ListensOn(m', addr', unused, w)
    ensures Listening(m', addr', unused, wants + [w])
  {
    forall x | x in wants + [w] ensures ListensOn(m', addr', unused, x) {
      if x in wants { assert ListensOn(m, addr, unused, x); }
    }
  }

  lemma StillListening(m: map<string, Socket>, m': map<string, Socket>, addr: map<Socket, Addr>,
                       addr': map<Socket, Addr>, unused: Socket, wants: seq<Want>)
    requires Listening(m, addr, unused, wants) && Extends(addr, addr')
    requires forall w :: w in wants && w.name in m ==> w.name in m' && m'[w.name] == m[w.name]
    ensures Listening(m', addr', unused, wants)
  {
    forall w | w in wants ensures ListensOn(m', addr', unused, w) {
      assert ListensOn(m, addr, unused, w);
    }
  }

  /** Opens a list of stream entries in turn, stopping at the first that fails. */
  method TakeStreams(net: Net, wants: seq<Want>, before: map<string, Socket>, m0: map<string, Socket>,
                     reused0: set<string>, ghost base: Base)
    returns (ok: bool, m: map<string, Socket>, reused: set<string>)
    requires Preparing(net, base, m0, reused0) && NamesOf(wants) !! m0.Keys && before.Values <= net.addr.Keys
    requires forall i, j :: 0 <= i < j < |wants| ==> wants[i].name != wants[j].name
    requires forall n :: n in before ==> n in base.all && base.all[n] == before[n]
    modifies net
    ensures Preparing(net, base, m, reused)
    ensures net.closed == old(net.closed) && net.accepting == old(net.accepting) && Extends(old(net.addr), net.addr)
    ensures ok ==> m.Keys == m0.Keys + NamesOf(wants) && AllHanded(m, before, old(net.addr), base.unused, wants)
    ensures ok ==> Listening(m, net.addr, base.unused, wants)
    ensures ok ==> forall n :: n in m0 ==> m[n] == m0[n]
    ensures net.attempts >= old(net.attempts) && (ok <==> !net.Refused(old(net.attempts), net.attempts))
  {
    hide Opening, Handed, ListensOn, Reusable;
    m, reused, ok := m0, reused0, true;
    for k := 0 to |wants|
      invariant net.attempts >= old(net.attempts) && !net.Refused(old(net.attempts), net.attempts)
      invariant Preparing(net, base, m, reused)
      invariant net.closed == old(net.closed) && net.accepting == old(net.accepting) && Extends(old(net.addr), net.addr)
      invariant m.Keys == m0.Keys + NamesOf(wants[..k]) && AllHanded(m, before, old(net.addr), base.unused, wants[..k])
      invariant forall n :: n in m0 ==> m[n] == m0[n]
      invariant Listening(m, net.addr, base.unused, wants[..k])
    {
      var w := wants[k];
      assert wants[..k + 1] == wants[..k] + [w];
      assert w.name !in m by { assert w.name in NamesOf(wants); }
      ghost var was, addr := m, net.addr;
      ok, m, reused := TakeStream(net, w, before, m, reused, base);
      if !ok {
        return;
      }
      HandedStays(was, m, before, old(net.addr), addr, base.unused, wants[..k], w);
      ListeningStays(was, m, addr, net.addr, base.unused, wants[..k], w);
    }
    assert wants[..|wants|] == wants;
  }

  /** A UDP entry is taken over only with unchanged session parameters; otherwise it fails, for the
      port is taken. */
  method TakeUDPEntry(net: Net, w: Want, before: map<string, Socket>, paramsMatch: bool, m0: map<string, Socket>,
                      reused0: set<string>, ghost base: Base)
    returns (ok: bool, m: map<string, Socket>, reused: set<string>)
    requires Preparing(net, base, m0, reused0) && w.name !in m0
    requires w.name in before ==> w.name in base.all && base.all[w.name] == before[w.name]
    modifies net
    ensures Preparing(net, base, m, reused)
    ensures net.closed == old(net.closed) && net.accepting == old(net.accepting) && Extends(old(net.addr), net.addr)
    ensures ok ==> Handed(m, before, old(net.addr), base.unused, w.name, w.addr) && m == m0[w.name := m[w.name]]
    ensures ok ==> Reusable(before, old(net.addr), w.name, w.addr) ==> paramsMatch
    ensures ok ==> ListensOn(m, net.addr, base.unused, w)
    ensures !ok ==> m == m0 && reused == reused0
    ensures net.attempts >= old(net.attempts)
    ensures ok <==> !net.Refused(old(net.attempts), net.attempts) &&
                    (paramsMatch || !Reusable(before, old(net.addr), w.name, w.addr))
  {
    if Reusable(before, net.addr, w.name, w.addr) && !paramsMatch {
      return false, m0, reused0;
    }
    ok, m, reused := TakeStream(net, w, before, m0, reused0, base);
  }

  predicate NoneReusable(before: map<string, Socket>, addr: map<Socket, Addr>, wants: seq<Want>) {
    forall w :: w in wants ==> !Reusable(before, addr, w.name, w.addr)
  }

  lemma StaysReusable(before: map<string, Socket>, addr: map<Socket, Addr>, addr': map<Socket, Addr>, w: Want)
    requires before.Values <= addr.Keys && Extends(addr, addr')
    ensures Reusable(before, addr, w.name, w.addr) <==> Reusable(before, addr', w.name, w.addr)
  {
    if w.name in before { assert before[w.name] in before.Values; }
  }

  method TakeUDPEntries(net: Net, wants: seq<Want>, before: map<string, Socket>, paramsMatch: bool,
                        m0: map<string, Socket>, reused0: set<string>, ghost base: Base)
    returns (ok: bool, m: map<string, Socket>, reused: set<string>)
    requires Preparing(net, base, m0, reused0) && NamesOf(wants) !! m0.Keys && before.Values <= net.addr.Keys
    requires forall i, j :: 0 <= i < j < |wants| ==> wants[i].name != wants[j].name
    requires forall n :: n in before ==> n in base.all && base.all[n] == before[n]
    modifies net
    ensures Preparing(net, base, m, reused)
    ensures net.closed == old(net.closed) && net.accepting == old(net.accepting) && Extends(old(net.addr), net.addr)
    ensures ok ==> m.Keys == m0.Keys + NamesOf(wants) && AllHanded(m, before, old(net.addr), base.unused, wants)
    ensures ok ==> Listening(m, net.addr, base.unused, wants)
    ensures ok ==> forall n :: n in m0 ==> m[n] == m0[n]
    ensures net.attempts >= old(net.attempts)
    ensures ok <==> !net.Refused(old(net.attempts), net.attempts) &&
                    (paramsMatch || NoneReusable(before, old(net.addr), wants))
  {
    hide Opening, Handed, ListensOn, Reusable;
    m, reused, ok := m0, reused0, true;
    for k := 0 to |wants|
      invariant net.attempts >= old(net.attempts) && !net.Refused(old(net.attempts), net.attempts)
      invariant Preparing(net, base, m, reused)
      invariant net.closed == old(net.closed) && net.accepting == old(net.accepting) && Extends(old(net.addr), net.addr)
      invariant m.Keys == m0.Keys + NamesOf(wants[..k]) && AllHanded(m, before, old(net.addr), base.unused, wants[..k])
      invariant forall n :: n in m0 ==> m[n] == m0[n]
      invariant Listening(m, net.addr, base.unused, wants[..k])
      invariant !paramsMatch ==> NoneReusable(before, old(net.addr), wants[..k])
    {
      var w := wants[k];
      assert wants[..k + 1] == wants[..k] + [w];
      assert w.name !in m by { assert w.name in NamesOf(wants); }
      ghost var was, addr := m, net.addr;
      StaysReusable(before, old(net.addr), addr, w);
      ok, m, reused := TakeUDPEntry(net, w, before, paramsMatch, m, reused, base);
      if !ok {
        return;
      }
      HandedStays(was, m, before, old(net.addr), addr, base.unused, wants[..k], w);
      ListeningStays(was, m, addr, net.addr, base.unused, wants[..k], w);
    }
    assert wants[..|wants|] == wants;
  }

  // The entries a configuration asks for.

  function WantsOf(s: Snapshot, bindings: seq<Binding>): seq<Want> {
    seq(|bindings|, i requires 0 <= i < |bindings| => Want(bindings[i].name, BindAddr(s, bindings[i].port)))
  }

  /** The HTTP ports in use, each once. */
  function HttpPorts(http: seq<HttpBinding>): seq<int>
    decreases |http|
  {
    if http == [] then []
    else
      var ports := HttpPorts(http[..|http| - 1]);
      var port := http[|http| - 1].port;
      if port in ports then ports else ports + [port]
  }

  function HttpWants(s: Snapshot, ports: seq<int>): seq<Want> {
    seq(|ports|, i requires 0 <= i < |ports| => Want(EntryName(ports[i]), BindAddr(s, ports[i])))
  }

  function StreamWants(s: Snapshot): seq<Want> {
    WantsOf(s, s.config.tcp) + WantsOf(s, s.config.https) + HttpWants(s, HttpPorts(s.config.http))
  }

  function UdpWants(s: Snapshot): seq<Want> { WantsOf(s, s.config.udp) }

  predicate WantsApart(wants: seq<Want>) {
    forall i, j :: 0 <= i < j < |wants| ==> wants[i].name != wants[j].name
  }

  lemma {:induction false} HttpPortsApart(http: seq<HttpBinding>)
    ensures Distinct(HttpPorts(http))
    ensures forall p :: p in HttpPorts(http) <==> exists b :: b in http && b.port == p
    decreases |http|
  {
    if http != [] {
      var init, b := http[..|http| - 1], http[|http| - 1];
      assert http == init + [b];
      HttpPortsApart(init);
      assert b in http;
    }
  }

  lemma NamesOfWants(s: Snapshot, bindings: seq<Binding>, name: string)
    ensures name in NamesOf(WantsOf(s, bindings)) <==> name in Names(bindings)
  {
    if name in Names(bindings) {
      var i :| 0 <= i < |bindings| && Names(bindings)[i] == name;
      assert WantsOf(s, bindings)[i] in WantsOf(s, bindings);
    }
    if name in NamesOf(WantsOf(s, bindings)) {
      var i :| 0 <= i < |bindings| && WantsOf(s, bindings)[i].name == name;
      assert Names(bindings)[i] == name;
    }
  }

  /** Shared HTTP entries have names of their own. */
  lemma SharedWants(s: Snapshot)
    requires Validation.Valid(s.config)
    ensures var shared := HttpWants(s, HttpPorts(s.config.http));
            WantsApart(shared) && forall name :: name in AllNames(s.config) ==> name !in NamesOf(shared)
  {
    var ports := HttpPorts(s.config.http);
    var shared := HttpWants(s, ports);
    HttpPortsApart(s.config.http);
    forall i, j | 0 <= i < j < |shared| ensures shared[i].name != shared[j].name {
      assert ports[i] in ports && ports[j] in ports;
      EntryPortOfName(ports[i]);
      EntryPortOfName(ports[j]);
    }
    forall name | name in AllNames(s.config) ensures name !in NamesOf(shared) {
      NameHasNoColon(s.config, name);
      forall i | 0 <= i < |shared| ensures shared[i].name != name {
        ColonFreeIsNoEntry(name, ports[i]);
      }
    }
  }

  lemma ApartConcat(a: seq<Want>, b: seq<Want>)
    requires WantsApart(a) && WantsApart(b) && NamesOf(a) !! NamesOf(b)
    ensures WantsApart(a + b) && NamesOf(a + b) == NamesOf(a) + NamesOf(b)
  {
    var s := a + b;
    forall i, j | 0 <= i < j < |s| ensures s[i].name != s[j].name {
      if i < |a| <= j { assert s[i].name in NamesOf(a) && s[j].name in NamesOf(b); }
    }
  }

  /** A valid configuration asks for every name once, so no entry can displace another. */
  lemma WantsAreApart(s: Snapshot)
    requires Validation.Valid(s.config)
    ensures WantsApart(StreamWants(s)) && WantsApart(UdpWants(s)) && NamesOf(StreamWants(s)) !! NamesOf(UdpWants(s))
  {
    var c := s.config;
    var t, u, h, z := Names(c.tcp), Names(c.udp), HttpNames(c.http), Names(c.https);
    DistinctConcat(t + u + h, z);
    DistinctConcat(t + u, h);
    DistinctConcat(t, u);
    OwnWants(s);
    SharedWants(s);
    var own, shared := WantsOf(s, c.tcp) + WantsOf(s, c.https), HttpWants(s, HttpPorts(c.http));
    forall name
      ensures name in NamesOf(own) <==> name in t || name in z
      ensures name in NamesOf(UdpWants(s)) <==> name in u
    {
      NamesOfWants(s, c.tcp, name);
      NamesOfWants(s, c.https, name);
      NamesOfWants(s, c.udp, name);
      assert NamesOf(own) == NamesOf(WantsOf(s, c.tcp)) + NamesOf(WantsOf(s, c.https));
    }
    forall name | name in t || name in z || name in u ensures name in AllNames(c) {}
    ApartConcat(own, shared);
    forall name | name in u ensures name !in z && name !in t {
      assert name in t + u && name in t + u + h;
    }
  }

  lemma OwnWants(s: Snapshot)
    requires Distinct(AllNames(s.config))
    ensures WantsApart(WantsOf(s, s.config.tcp) + WantsOf(s, s.config.https)) && WantsApart(UdpWants(s))
  {
    var c := s.config;
    var t, u, h, z := Names(c.tcp), Names(c.udp), HttpNames(c.http), Names(c.https);
    DistinctConcat(t + u + h, z);
    DistinctConcat(t + u, h);
    DistinctConcat(t, u);
    forall x | x in t ensures x !in z { assert x in t + u && x in t + u + h; }
    DistinctConcat(t, z);
    var own := WantsOf(s, c.tcp) + WantsOf(s, c.https);
    forall i, j | 0 <= i < j < |own| ensures own[i].name != own[j].name {
      assert own[i].name == (t + z)[i] && own[j].name == (t + z)[j];
    }
    forall i, j | 0 <= i < j < |UdpWants(s)| ensures UdpWants(s)[i].name != UdpWants(s)[j].name {
      assert UdpWants(s)[i].name == u[i] && UdpWants(s)[j].name == u[j];
    }
  }

  method DistinctPorts(http: seq<HttpBinding>) returns (ports: seq<int>)
    ensures ports == HttpPorts(http)
  {
    var seen: set<int> := {};
    ports := [];
    for k := 0 to |http|
      invariant ports == HttpPorts(http[..k])
      invariant forall p :: p in seen <==> p in ports
    {
      assert http[..k + 1][..k] == http[..k];
      if http[k].port !in seen {
        seen, ports := seen + {http[k].port}, ports + [http[k].port];
      }
    }
    assert http[..|http|] == http;
  }

  /** There is an entry for each binding of the configuration: the old socket wherever the name and
      the address are kept, and a socket opened since elsewhere. */
  predicate Serves(s: Snapshot, streams: map<string, Socket>, udp: map<string, Socket>,
                   oldStreams: map<string, Socket>, oldUdp: map<string, Socket>,
                   addr: map<Socket, Addr>, unused: Socket)
  {
    && streams.Keys == NamesOf(StreamWants(s)) && udp.Keys == NamesOf(UdpWants(s))
    && AllHanded(streams, oldStreams, addr, unused, StreamWants(s))
    && AllHanded(udp, oldUdp, addr, unused, UdpWants(s))
  }

  /** The entry is open on the port, and on the host unless one of the two is the wildcard. */
  predicate OpenOn(m: map<string, Socket>, addr: map<Socket, Addr>, name: string, host: Host, port: int) {
    && name in m && m[name] in addr && addr[m[name]].port == port
    && (addr[m[name]].host == host || addr[m[name]].host == Unspecified || host == Unspecified)
  }

  /** There is an entry for every TCP, UDP and HTTPS proxy of a configuration and one for every port of
      its HTTP proxies, and no other; each is open where it should be. */
  ghost predicate AsConfigured(s: Snapshot, streams: map<string, Socket>, udp: map<string, Socket>,
                               addr: map<Socket, Addr>)
  {
    && (forall b :: b in s.config.tcp + s.config.https ==> OpenOn(streams, addr, b.name, s.host, b.port))
    && (forall b :: b in s.config.http ==> OpenOn(streams, addr, EntryName(b.port), s.host, b.port))
    && (forall b :: b in s.config.udp ==> OpenOn(udp, addr, b.name, s.host, b.port))
    && (forall n :: n in streams ==>
          (exists b :: b in s.config.tcp + s.config.https && b.name == n) ||
          (exists b :: b in s.config.http && EntryName(b.port) == n))
    && (forall n :: n in udp ==> exists b :: b in s.config.udp && b.name == n)
  }

  /** An entry keeps its socket if that was open where the entry should be; otherwise it has one opened
      since, on the very address. */
  predicate KeptOrNew(m: map<string, Socket>, before: map<string, Socket>, addr: map<Socket, Addr>,
                      addr': map<Socket, Addr>, start: set<Socket>, name: string, host: Host, port: int)
  {
    name in m &&
    if OpenOn(before, addr, name, host, port) then m[name] == before[name]
    else m[name] !in start && m[name] in addr' && addr'[m[name]] == Addr(host, port)
  }

  /** So it is for every proxy of the configuration. */
  ghost predicate KeepsWhatFits(s: Snapshot, streams: map<string, Socket>, udp: map<string, Socket>,
                                oldStreams: map<string, Socket>, oldUdp: map<string, Socket>,
                                addr: map<Socket, Addr>, addr': map<Socket, Addr>, start: set<Socket>)
  {
    && (forall b :: b in s.config.tcp + s.config.https ==>
          KeptOrNew(streams, oldStreams, addr, addr', start, b.name, s.host, b.port))
    && (forall b :: b in s.config.http ==>
          KeptOrNew(streams, oldStreams, addr, addr', start, EntryName(b.port), s.host, b.port))
    && (forall b :: b in s.config.udp ==>
          KeptOrNew(udp, oldUdp, addr, addr', start, b.name, s.host, b.port))
  }

  lemma HandedFits(m: map<string, Socket>, before: map<string, Socket>, addr: map<Socket, Addr>,
                   addr': map<Socket, Addr>, unused: Socket, start: set<Socket>, name: string, host: Host, port: int)
    requires Handed(m, before, addr, unused, name, Addr(host, port))
    requires ListensOn(m, addr', unused, Want(name, Addr(host, port)))
    requires forall x: Socket :: x in start ==> x < unused
    ensures KeptOrNew(m, before, addr, addr', start, name, host, port)
  {}

  lemma ServesKeepsWhatFits(s: Snapshot, streams: map<string, Socket>, udp: map<string, Socket>,
                            oldStreams: map<string, Socket>, oldUdp: map<string, Socket>,
                            addr: map<Socket, Addr>, addr': map<Socket, Addr>, unused: Socket, start: set<Socket>)
    requires Serves(s, streams, udp, oldStreams, oldUdp, addr, unused)
    requires Listening(streams, addr', unused, StreamWants(s)) && Listening(udp, addr', unused, UdpWants(s))
    requires forall x: Socket :: x in start ==> x < unused
    ensures KeepsWhatFits(s, streams, udp, oldStreams, oldUdp, addr, addr', start)
  {
    WantsAreConfigured(s);
    hide StreamWants, UdpWants, EntryName, Handed, KeptOrNew, ListensOn;
    var c := s.config;
    forall b | b in c.tcp + c.https
      ensures KeptOrNew(streams, oldStreams, addr, addr', start, b.name, s.host, b.port)
    {
      HandedFits(streams, oldStreams, addr, addr', unused, start, b.name, s.host, b.port);
    }
    forall b | b in c.http
      ensures KeptOrNew(streams, oldStreams, addr, addr', start, EntryName(b.port), s.host, b.port)
    {
      HandedFits(streams, oldStreams, addr, addr', unused, start, EntryName(b.port), s.host, b.port);
    }
    forall b | b in c.udp ensures KeptOrNew(udp, oldUdp, addr, addr', start, b.name, s.host, b.port) {
      HandedFits(udp, oldUdp, addr, addr', unused, start, b.name, s.host, b.port);
    }
  }

  /** The visitors who get to an entry are those the configuration means, if and only if it did not keep
      a socket open on another host, which it can only if one of the two hosts is the wildcard. */
  lemma ReachIsExact(m: map<string, Socket>, before: map<string, Socket>, addr: map<Socket, Addr>,
                     addr': map<Socket, Addr>, start: set<Socket>, name: string, host: Host, port: int)
    requires KeptOrNew(m, before, addr, addr', start, name, host, port) && Extends(addr, addr')
    ensures m[name] in addr'
    ensures (forall ip, p :: Reaches(addr'[m[name]], ip, p) <==> Reaches(Addr(host, port), ip, p)) <==>
            !(OpenOn(before, addr, name, host, port) && addr[before[name]].host != host)
  {
    var a := addr'[m[name]];
    if a.host != host {
      var ip := if a.host.Specific? then a.host.ip + 1 else host.ip + 1;
      assert Reaches(a, ip, port) != Reaches(Addr(host, port), ip, port);
    }
  }

  lemma WantedBinding(s: Snapshot, bindings: seq<Binding>, b: Binding)
    requires b in bindings
    ensures Want(b.name, Addr(s.host, b.port)) in WantsOf(s, bindings)
  {
    var i :| 0 <= i < |bindings| && bindings[i] == b;
    assert WantsOf(s, bindings)[i] == Want(b.name, Addr(s.host, b.port));
  }

  lemma BindingWanted(s: Snapshot, bindings: seq<Binding>, w: Want)
    requires w in WantsOf(s, bindings)
    ensures exists b :: b in bindings && w == Want(b.name, Addr(s.host, b.port))
  {
    var i :| 0 <= i < |bindings| && WantsOf(s, bindings)[i] == w;
    assert bindings[i] in bindings;
  }

  lemma SharedWanted(s: Snapshot, port: int)
    ensures (exists b :: b in s.config.http && b.port == port) ==>
              Want(EntryName(port), Addr(s.host, port)) in HttpWants(s, HttpPorts(s.config.http))
    ensures forall w :: w in HttpWants(s, HttpPorts(s.config.http)) ==>
                          exists b :: b in s.config.http && w == Want(EntryName(b.port), Addr(s.host, b.port))
  {
    var ports := HttpPorts(s.config.http);
    HttpPortsApart(s.config.http);
    if port in ports {
      var i :| 0 <= i < |ports| && ports[i] == port;
      assert HttpWants(s, ports)[i] == Want(EntryName(port), Addr(s.host, port));
    }
    forall w | w in HttpWants(s, ports)
      ensures exists b :: b in s.config.http && w == Want(EntryName(b.port), Addr(s.host, b.port))
    {
      var i :| 0 <= i < |ports| && HttpWants(s, ports)[i] == w;
      assert ports[i] in ports;
    }
  }

  /** What a configuration asks for, proxy by proxy. */
  lemma WantsAreConfigured(s: Snapshot)
    ensures forall b :: b in s.config.tcp + s.config.https ==> Want(b.name, Addr(s.host, b.port)) in StreamWants(s)
    ensures forall b :: b in s.config.http ==> Want(EntryName(b.port), Addr(s.host, b.port)) in StreamWants(s)
    ensures forall b :: b in s.config.udp ==> Want(b.name, Addr(s.host, b.port)) in UdpWants(s)
    ensures forall w :: w in StreamWants(s) ==>
              (exists b :: b in s.config.tcp + s.config.https && w == Want(b.name, Addr(s.host, b.port))) ||
              (exists b :: b in s.config.http && w == Want(EntryName(b.port), Addr(s.host, b.port)))
    ensures forall w :: w in UdpWants(s) ==> exists b :: b in s.config.udp && w == Want(b.name, Addr(s.host, b.port))
  {
    hide WantsOf, HttpWants, EntryName;
    var c := s.config;
    forall b | b in c.tcp + c.https ensures Want(b.name, Addr(s.host, b.port)) in StreamWants(s) {
      if b in c.tcp { WantedBinding(s, c.tcp, b); } else { WantedBinding(s, c.https, b); }
    }
    forall b | b in c.http ensures Want(EntryName(b.port), Addr(s.host, b.port)) in StreamWants(s) {
      SharedWanted(s, b.port);
    }
    forall b | b in c.udp { WantedBinding(s, c.udp, b); }
    forall w | w in StreamWants(s)
      ensures (exists b :: b in c.tcp + c.https && w == Want(b.name, Addr(s.host, b.port))) ||
              (exists b :: b in c.http && w == Want(EntryName(b.port), Addr(s.host, b.port)))
    {
      if w in WantsOf(s, c.tcp) {
        BindingWanted(s, c.tcp, w);
      } else if w in WantsOf(s, c.https) {
        BindingWanted(s, c.https, w);
      } else {
        SharedWanted(s, 0);
      }
    }
    forall w | w in UdpWants(s) ensures exists b :: b in c.udp && w == Want(b.name, Addr(s.host, b.port)) {
      BindingWanted(s, c.udp, w);
    }
  }

  lemma NoneReusableMeans(s: Snapshot, before: map<string, Socket>, addr: map<Socket, Addr>)
    ensures NoneReusable(before, addr, UdpWants(s)) <==>
            forall b :: b in s.config.udp ==> !OpenOn(before, addr, b.name, s.host, b.port)
  {
    WantsAreConfigured(s);
    hide StreamWants, UdpWants, EntryName;
    if NoneReusable(before, addr, UdpWants(s)) {
      forall b | b in s.config.udp ensures !OpenOn(before, addr, b.name, s.host, b.port) {
        assert !Reusable(before, addr, b.name, Addr(s.host, b.port)) by {
          assert Want(b.name, Addr(s.host, b.port)) in UdpWants(s);
        }
      }
    }
  }

  lemma ListeningAsConfigured(s: Snapshot, streams: map<string, Socket>, udp: map<string, Socket>,
                              addr: map<Socket, Addr>, unused: Socket)
    requires Listening(streams, addr, unused, StreamWants(s)) && Listening(udp, addr, unused, UdpWants(s))
    requires streams.Keys == NamesOf(StreamWants(s)) && udp.Keys == NamesOf(UdpWants(s))
    ensures AsConfigured(s, streams, udp, addr)
  {
    WantsAreConfigured(s);
    hide StreamWants, UdpWants, EntryName;
    forall b | b in s.config.tcp + s.config.https ensures OpenOn(streams, addr, b.name, s.host, b.port) {
      assert ListensOn(streams, addr, unused, Want(b.name, Addr(s.host, b.port)));
    }
    forall b | b in s.config.http ensures OpenOn(streams, addr, EntryName(b.port), s.host, b.port) {
      assert ListensOn(streams, addr, unused, Want(EntryName(b.port), Addr(s.host, b.port)));
    }
    forall b | b in s.config.udp ensures OpenOn(udp, addr, b.name, s.host, b.port) {
      assert ListensOn(udp, addr, unused, Want(b.name, Addr(s.host, b.port)));
    }
  }

  lemma Undo(m: map<string, Socket>, reused: set<string>, before: map<string, Socket>, start: set<Socket>,
             now: set<Socket>)
    requires Opening(m, reused, before, start, now)
    ensures Others(m, reused) <= now && now - Others(m, reused) == start
  {}

  /** Handed over as seen before other sockets were opened, and in the UDP table alone. */
  lemma HandedBefore(all: map<string, Socket>, guests: map<string, Socket>, before: map<string, Socket>,
                     addr: map<Socket, Addr>, addr': map<Socket, Addr>, unused: Socket, wants: seq<Want>)
    requires AllHanded(all, before, addr', unused, wants) && NamesOf(wants) !! guests.Keys
    requires before.Values <= addr.Keys && Extends(addr, addr')
    ensures AllHanded(all - guests.Keys, before, addr, unused, wants)
  {
    forall w | w in wants ensures Handed(all - guests.Keys, before, addr, unused, w.name, w.addr) {
      StaysReusable(before, addr, addr', w);
      assert w.name in NamesOf(wants);
    }
  }

  lemma NoneReusableBefore(before: map<string, Socket>, addr: map<Socket, Addr>, addr': map<Socket, Addr>,
                           wants: seq<Want>)
    requires before.Values <= addr.Keys && Extends(addr, addr')
    ensures NoneReusable(before, addr, wants) <==> NoneReusable(before, addr', wants)
  {
    forall w | w in wants { StaysReusable(before, addr, addr', w); }
  }

  lemma Merged(streams: map<string, Socket>, udp: map<string, Socket>)
    requires streams.Keys !! udp.Keys
    ensures (streams + udp).Values == streams.Values + udp.Values
    ensures forall n :: n in streams ==> n in streams + udp && (streams + udp)[n] == streams[n]
    ensures forall n :: n in udp ==> n in streams + udp && (streams + udp)[n] == udp[n]
  {
    var all := streams + udp;
    forall x | x in streams.Values ensures x in all.Values {
      var n :| n in streams && streams[n] == x;
      assert all[n] == x;
    }
    forall x | x in udp.Values ensures x in all.Values {
      var n :| n in udp && udp[n] == x;
      assert all[n] == x;
    }
  }

  /** `before` is part of the tables in use. */
  predicate PartOf(before: map<string, Socket>, all: map<string, Socket>) {
    before.Values <= all.Values && forall n :: n in before ==> n in all && all[n] == before[n]
  }

  method OpenStreams(net: Net, s: Snapshot, before: map<string, Socket>, ghost base: Base)
    returns (ok: bool, streams: map<string, Socket>, reused: set<string>)
    requires net.Valid() && base.all.Values <= base.start == net.open && base.unused == net.next && Injective(base.all)
    requires PartOf(before, base.all) && WantsApart(StreamWants(s))
    modifies net
    ensures net.Valid() && net.accepting == old(net.accepting) && Extends(old(net.addr), net.addr)
    ensures !ok ==> net.open == old(net.open)
    ensures ok ==> Preparing(net, base, streams, reused) && net.closed == old(net.closed)
    ensures ok ==> streams.Keys == NamesOf(StreamWants(s))
    ensures ok ==> AllHanded(streams, before, old(net.addr), base.unused, StreamWants(s))
    ensures ok ==> Listening(streams, net.addr, base.unused, StreamWants(s))
    ensures net.attempts >= old(net.attempts) && (ok <==> !net.Refused(old(net.attempts), net.attempts))
  {
    var ports := DistinctPorts(s.config.http);
    var wants := WantsOf(s, s.config.tcp) + WantsOf(s, s.config.https) + HttpWants(s, ports);
    ok, streams, reused := TakeStreams(net, wants, before, map[], {}, base);
    if !ok {
      Undo(streams, reused, base.all, base.start, net.open);
      CloseAllBut(net, streams, reused);
    }
  }

  method OpenUDPEntries(net: Net, s: Snapshot, before: map<string, Socket>, paramsMatch: bool,
                        streams: map<string, Socket>, reused0: set<string>, ghost base: Base)
    returns (ok: bool, all: map<string, Socket>, reused: set<string>)
    requires Preparing(net, base, streams, reused0) && before.Values <= net.addr.Keys
    requires PartOf(before, base.all) && WantsApart(UdpWants(s)) && streams.Keys !! NamesOf(UdpWants(s))
    requires net.accepting <= base.start
    modifies net
    ensures net.Valid() && net.accepting == old(net.accepting) && Extends(old(net.addr), net.addr)
    ensures !ok ==> net.open == base.start
    ensures ok ==> Preparing(net, base, all, reused) && net.closed == old(net.closed)
    ensures ok ==> all.Keys == streams.Keys + NamesOf(UdpWants(s)) && forall n :: n in streams ==> all[n] == streams[n]
    ensures ok ==> AllHanded(all, before, old(net.addr), base.unused, UdpWants(s))
    ensures ok ==> Listening(all, net.addr, base.unused, UdpWants(s))
    ensures net.attempts >= old(net.attempts)
    ensures ok <==> !net.Refused(old(net.attempts), net.attempts) &&
                    (paramsMatch || NoneReusable(before, old(net.addr), UdpWants(s)))
  {
    ok, all, reused := TakeUDPEntries(net, UdpWants(s), before, paramsMatch, streams, reused0, base);
    if !ok {
      Undo(all, reused, base.all, base.start, net.open);
      CloseAllBut(net, all, reused);
    }
  }

  lemma ServesBoth(s: Snapshot, streams: map<string, Socket>, all: map<string, Socket>,
                   oldStreams: map<string, Socket>, oldUdp: map<string, Socket>,
                   addr: map<Socket, Addr>, addr': map<Socket, Addr>, unused: Socket)
    requires streams.Keys == NamesOf(StreamWants(s)) && NamesOf(StreamWants(s)) !! NamesOf(UdpWants(s))
    requires all.Keys == streams.Keys + NamesOf(UdpWants(s)) && forall n :: n in streams ==> all[n] == streams[n]
    requires AllHanded(streams, oldStreams, addr, unused, StreamWants(s))
    requires AllHanded(all, oldUdp, addr', unused, UdpWants(s))
    requires oldUdp.Values <= addr.Keys && Extends(addr, addr')
    ensures var udp := all - streams.Keys;
            && streams.Keys !! udp.Keys && streams + udp == all
            && Serves(s, streams, udp, oldStreams, oldUdp, addr, unused)
  {
    HandedBefore(all, streams, oldUdp, addr, addr', unused, UdpWants(s));
    assert (all - streams.Keys).Keys == all.Keys - streams.Keys;
  }

  /** Opens the entries of a configuration, taking over what it can from the tables in use. On
      failure everything newly opened is closed again. */
  method OpenEntries(net: Net, s: Snapshot, oldStreams: map<string, Socket>, oldUdp: map<string, Socket>,
                     paramsMatch: bool)
    returns (ok: bool, streams: map<string, Socket>, udp: map<string, Socket>, reused: set<string>)
    requires net.Valid() && Validation.Valid(s.config)
    requires oldStreams.Keys !! oldUdp.Keys && Injective(oldStreams + oldUdp) &&
             (oldStreams + oldUdp).Values <= net.open
    modifies net
    ensures net.Valid() && net.accepting == old(net.accepting) && Extends(old(net.addr), net.addr)
    ensures !ok ==> net.open == old(net.open)
    ensures ok ==> streams.Keys !! udp.Keys && net.closed == old(net.closed)
    ensures ok ==> Serves(s, streams, udp, oldStreams, oldUdp, old(net.addr), old(net.next))
    ensures ok ==> Opening(streams + udp, reused, oldStreams + oldUdp, old(net.open), net.open)
    ensures ok ==> Listening(streams, net.addr, old(net.next), StreamWants(s))
    ensures ok ==> Listening(udp, net.addr, old(net.next), UdpWants(s))
    ensures net.attempts >= old(net.attempts)
    ensures ok <==> !net.Refused(old(net.attempts), net.attempts) &&
                    (paramsMatch || NoneReusable(oldUdp, old(net.addr), UdpWants(s)))
  {
    WantsAreApart(s);
    Merged(oldStreams, oldUdp);
    ghost var base := Base(net.open, oldStreams + oldUdp, net.next);
    ok, streams, reused := OpenStreams(net, s, oldStreams, base);
    udp := map[];
    if ok {
      ghost var addr := net.addr;
      var all;
      NoneReusableBefore(oldUdp, old(net.addr), addr, UdpWants(s));
      ok, all, reused := OpenUDPEntries(net, s, oldUdp, paramsMatch, streams, reused, base);
      if ok {
        ServesBoth(s, streams, all, oldStreams, oldUdp, old(net.addr), addr, base.unused);
        udp := all - streams.Keys;
        StillListening(streams, streams, addr, net.addr, base.unused, StreamWants(s));
        assert forall w :: w in UdpWants(s) ==> w.name in NamesOf(UdpWants(s));
        StillListening(all, udp, net.addr, net.addr, base.unused, UdpWants(s));
      }
    }
  }
}
