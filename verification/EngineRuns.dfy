/** Runs of the server engine from its start. */
module EngineRuns {
  import opened Validation
  import opened HotSwap
  import opened ServerEngine

  /** The engine has an entry of that name, listening there. */
  predicate Placed(engine: Engine, name: string, host: Host, port: int)
    reads engine, engine.active, engine.net
  {
    && engine.active != null && name in engine.active.guestLns && engine.active.guestLns[name] in engine.net.addr
    && engine.net.addr[engine.active.guestLns[name]] == Addr(host, port)
  }

  const NO_FAULT := Faults(false, false, false, false)

  /** An engine on which nothing fails. */
  ghost predicate Smooth(engine: Engine)
    reads engine, engine.net, engine.active
  {
    && engine.Valid() && engine.state == Running && engine.active != null && !engine.applying
    && engine.active.snapshot.udpParams == 0 && engine.net.refuses == Never
  }

  predicate Never(attempt: nat) { false }

  /** A new engine started with a configuration. */
  method StartOn(s: Snapshot) returns (engine: Engine, ghost unused: Socket)
    requires Validation.Valid(s.config) && s.udpParams == 0
    ensures fresh(engine) && fresh(engine.net) && Smooth(engine) && fresh(engine.active) && engine.active.revision == 0
    ensures engine.active.guestLns.Keys == NamesOf(StreamWants(s)) &&
            engine.active.udpEntries.Keys == NamesOf(UdpWants(s))
    ensures Listening(engine.active.guestLns, engine.net.addr, unused, StreamWants(s)) &&
            Listening(engine.active.udpEntries, engine.net.addr, unused, UdpWants(s))
    ensures AsConfigured(s, engine.active.guestLns, engine.active.udpEntries, engine.net.addr)
    ensures forall b :: b in s.config.tcp ==> Placed(engine, b.name, s.host, b.port)
  {
    hide Validation.Valid, AllHanded, Listening, AsConfigured;
    engine := new Engine(s, true, null, Never);
    var listener := new ControlListener();
    engine.control := listener;
    unused := engine.net.next;
    var _ := engine.Start(false, false);
  }

  const PAIR := Snapshot(ServerConfig([Binding("a", 1), Binding("b", 2)], [], [], []), Unspecified, 0)
  const BARE := Snapshot(ServerConfig([], [], [], []), Unspecified, 0)

  lemma PairWants()
    ensures StreamWants(PAIR) == [Want("a", Addr(Unspecified, 1)), Want("b", Addr(Unspecified, 2))]
    ensures UdpWants(PAIR) == []
    ensures StreamWants(BARE) == [] && UdpWants(BARE) == []
    ensures NamesOf(StreamWants(PAIR)) == {"a", "b"} && NamesOf([]) == {}
  {
    var wants := [Want("a", Addr(Unspecified, 1)), Want("b", Addr(Unspecified, 2))];
    assert WantsOf(PAIR, PAIR.config.tcp) == wants;
    assert StreamWants(PAIR) == wants + [] + [];
    assert wants[0].name == "a" && wants[1].name == "b" && wants[0] in wants && wants[1] in wants;
  }

  /** Nothing is wrong with these configurations. */
  lemma PairIsValid()
    ensures Validation.Valid(PAIR.config) && Validation.Valid(BARE.config)
  {
    BareIsValid();
    PairFields(PAIR.config);
    PairApart(PAIR.config);
    hide FieldsValid, ConflictFree;
  }

  lemma PairFields(c: ServerConfig)
    requires c == PAIR.config
    ensures FieldsValid(c)
  {
    assert c.tcp + c.udp + c.https == [Binding("a", 1), Binding("b", 2)];
  }

  lemma PairApart(c: ServerConfig)
    requires c == PAIR.config
    ensures ConflictFree(c)
  {
    assert AllNames(c) == ["a", "b"] && "a"[0] != "b"[0];
    assert c.tcp + c.udp + c.https == [Binding("a", 1), Binding("b", 2)];
    assert Claims(c.http) == [];
  }

  lemma BareIsValid()
    ensures Validation.Valid(BARE.config)
  {
    assert AllNames(BARE.config) == [] && Claims(BARE.config.http) == [];
  }

  /** An engine that started with two entries keeps them once and then drops them: two sockets are
      closed, and the result counts none. */
  method KeptThenDropped() returns (drained: int, closed: nat)
    ensures drained == 0 && closed == 2
  {
    hide Validation.Valid, Listening, NoneReusable, AllHanded, KeptOf, StreamWants, UdpWants, Others, Owns,
         EntryCount, Extends, AsConfigured, KeepsWhatFits;
    PairIsValid();
    PairWants();
    var engine;
    ghost var unused;
    engine, unused := StartOn(PAIR);
    AllKept(PAIR, engine.active.guestLns, engine.active.udpEntries, engine.net.addr, unused);
    var _ := engine.Apply(Deployment(1, PAIR, 0), NO_FAULT);
    drained, closed := DropAll(engine);
  }

  method DropAll(engine: Engine) returns (drained: int, closed: nat)
    requires Smooth(engine) && engine.active.revision == 1
    requires engine.active.guestLns.Keys == {"a", "b"} && engine.active.udpEntries == map[]
    requires engine.active.reused == {"a", "b"}
    modifies engine, engine.net, engine.active
    ensures drained == 0 && closed == 2
  {
    hide Validation.Valid, Listening, NoneReusable, AllHanded, StreamWants, UdpWants, Others, KeptOf, Reusable, Extends,
         Injective, AsConfigured, KeepsWhatFits;
    assert Validation.Valid(BARE.config) by { PairIsValid(); }
    assert StreamWants(BARE) == [] && UdpWants(BARE) == [] && NamesOf([]) == {} by { PairWants(); }
    var before := engine.net.open;
    assert |before| == 2 by { TwoOpen(engine.active); }
    NoneKept(engine.active.guestLns, engine.active.udpEntries, engine.net.addr);
    var r := engine.Apply(Deployment(2, BARE, 0), NO_FAULT);
    drained, closed := r.drained, |before - engine.net.open|;
    assert engine.net.open == {} by { assert engine.active.Entries() == map[]; }
    assert before - engine.net.open == before;
  }

  lemma NoneKept(streams: map<string, Socket>, udp: map<string, Socket>, addr: map<Socket, Addr>)
    ensures KeptOf(BARE, streams, udp, addr) == {}
  {
    PairWants();
  }

  lemma AllKept(s: Snapshot, streams: map<string, Socket>, udp: map<string, Socket>, addr: map<Socket, Addr>,
                unused: Socket)
    requires Listening(streams, addr, unused, StreamWants(s)) && Listening(udp, addr, unused, UdpWants(s))
    ensures KeptOf(s, streams, udp, addr) == NamesOf(StreamWants(s)) + NamesOf(UdpWants(s))
  {}

  lemma TwoOpen(g: Generation)
    requires g.guestLns.Keys == {"a", "b"} && g.udpEntries == map[] && Injective(g.Entries())
    ensures |g.Entries().Values| == 2
  {
    assert g.Entries() == g.guestLns;
    ImageSize(g.guestLns, {"a", "b"});
    assert Image(g.guestLns, {"a", "b"}) == g.guestLns.Values;
  }

  const HERE := Snapshot(ServerConfig([Binding("a", 80)], [], [], []), Unspecified, 0)
  const THERE := Snapshot(ServerConfig([Binding("a", 81)], [], [], []), Unspecified, 0)
  const LOCAL := Snapshot(ServerConfig([Binding("a", 80)], [], [], []), Specific(1), 0)

  lemma HereIsValid()
    ensures Validation.Valid(HERE.config) && Validation.Valid(THERE.config)
    ensures Binding("a", 80) in HERE.config.tcp && Binding("a", 81) in THERE.config.tcp
  {
    assert AllNames(HERE.config) == ["a"] && AllNames(THERE.config) == ["a"];
  }

  /** A proxy moves to another port: its old socket is closed, and its new one is on the new port. */
  method PortMoves() returns (oldOpen: bool, newOpen: bool, newPort: int)
    ensures !oldOpen && newOpen && newPort == 81
  {
    hide Validation.Valid, Listening, StreamWants, UdpWants, AsConfigured;
    HereIsValid();
    var engine, _ := StartOn(HERE);
    oldOpen, newOpen, newPort := MoveOn(engine);
  }

  method MoveOn(engine: Engine) returns (oldOpen: bool, newOpen: bool, newPort: int)
    requires Smooth(engine) && engine.active.revision == 0 && Placed(engine, "a", Unspecified, 80)
    modifies engine, engine.net, engine.active
    ensures !oldOpen && newOpen && newPort == 81
  {
    hide Validation.Valid, Listening, NoneReusable, Serves, KeptOf, StreamWants, UdpWants, EntryCount, AsConfigured,
         KeepsWhatFits, Extends, Injective;
    HereIsValid();
    ghost var streams, addr, start := engine.active.guestLns, engine.net.addr, engine.net.open;
    var before := engine.active.guestLns["a"];
    assert "a" in engine.active.Entries() && "a" !in engine.active.udpEntries;
    assert before in engine.net.open;
    var _ := engine.Apply(Deployment(1, THERE, 0), NO_FAULT);
    Moved(engine.active.guestLns, engine.active.udpEntries, streams, old(engine.active.udpEntries), addr,
          engine.net.addr, start);
    var after := engine.active.guestLns["a"];
    assert engine.active.Entries()["a"] == after;
    oldOpen, newOpen, newPort := before in engine.net.open, after in engine.net.open, engine.net.addr[after].port;
  }

  lemma Moved(streams: map<string, Socket>, udp: map<string, Socket>, oldStreams: map<string, Socket>,
              oldUdp: map<string, Socket>, addr: map<Socket, Addr>, addr': map<Socket, Addr>, start: set<Socket>)
    requires AsConfigured(THERE, streams, udp, addr')
    requires KeepsWhatFits(THERE, streams, udp, oldStreams, oldUdp, addr, addr', start)
    requires "a" in oldStreams && oldStreams["a"] in addr && addr[oldStreams["a"]].port == 80
    ensures "a" in streams && streams["a"] !in start && streams["a"] in addr' && addr'[streams["a"]].port == 81
    ensures streams.Keys == {"a"} && udp.Keys == {}
  {
    assert Binding("a", 81) in THERE.config.tcp + THERE.config.https;
  }

  /** A server that listened at one address is told to listen everywhere. The entry keeps its socket,
      and visitors at other addresses do not get to it. */
  method HostStays() returns (kept: bool, reached: bool)
    ensures kept && !reached && Reaches(Addr(Unspecified, 80), 2, 80)
  {
    hide Validation.Valid, Listening, StreamWants, UdpWants, AsConfigured;
    HereIsValid();
    assert Binding("a", 80) in LOCAL.config.tcp;
    var engine, _ := StartOn(LOCAL);
    kept, reached := StayOn(engine);
  }

  method StayOn(engine: Engine) returns (kept: bool, reached: bool)
    requires Smooth(engine) && engine.active.revision == 0 && Placed(engine, "a", Specific(1), 80)
    modifies engine, engine.net, engine.active
    ensures kept && !reached
  {
    hide Validation.Valid, Listening, NoneReusable, Serves, KeptOf, StreamWants, UdpWants, EntryCount, AsConfigured,
         KeepsWhatFits, Injective, Owns;
    HereIsValid();
    ghost var streams, addr, start := engine.active.guestLns, engine.net.addr, engine.net.open;
    var before := engine.active.guestLns["a"];
    var _ := engine.Apply(Deployment(1, HERE, 0), NO_FAULT);
    Stayed(engine.active.guestLns, engine.active.udpEntries, streams, old(engine.active.udpEntries), addr,
           engine.net.addr, start);
    var after := engine.active.guestLns["a"];
    kept, reached := after == before, Reaches(engine.net.addr[after], 2, 80);
  }

  lemma Stayed(streams: map<string, Socket>, udp: map<string, Socket>, oldStreams: map<string, Socket>,
               oldUdp: map<string, Socket>, addr: map<Socket, Addr>, addr': map<Socket, Addr>, start: set<Socket>)
    requires KeepsWhatFits(HERE, streams, udp, oldStreams, oldUdp, addr, addr', start)
    requires "a" in oldStreams && oldStreams["a"] in addr && addr[oldStreams["a"]].port == 80
    ensures "a" in streams && streams["a"] == oldStreams["a"]
  {
    assert Binding("a", 80) in HERE.config.tcp + HERE.config.https;
  }
}
