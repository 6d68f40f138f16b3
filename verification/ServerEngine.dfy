/** The server engine: start, apply, shut down. */
module ServerEngine {
  import opened Wrappers
  import opened Validation
  import opened HotSwap

  class Generation {
    const revision: nat
    const snapshot: Snapshot
    var guestLns: map<string, Socket>
    var udpEntries: map<string, Socket>
    /** Names of the entries taken over from the generation before. */
    var reused: set<string>
    /** Names of the entries handed to the generation after; no longer ours to close. */
    var donated: set<string>
    var stopping: bool

    constructor (revision: nat, snapshot: Snapshot)
      ensures this.revision == revision && this.snapshot == snapshot && !stopping
      ensures guestLns == map[] && udpEntries == map[] && reused == {} && donated == {}
    {
      this.revision, this.snapshot, stopping := revision, snapshot, false;
      guestLns, udpEntries, reused, donated := map[], map[], {}, {};
    }

    ghost function Entries(): map<string, Socket>
      reads this
    {
      guestLns + udpEntries
    }
  }

  datatype EngineState = Idle | Running | Stopped

  datatype Stage = ValidateStage | PrepareStage | HealthCheckStage | AppliedStage | DrainedStage

  datatype ApplyResult =
    | InProgress
    | Failed(stage: Stage)
    | Done(stage: Stage, revision: nat, previous: nat, changed: int, drained: int)

  /** What the outside decides about an application: something else is wrong with the configuration, the
      caller gives up while entries are opened, the check of the new generation fails or the caller
      gives up during it, and the old generation does not come to rest in time. */
  datatype Faults = Faults(otherProblem: bool, cancelled: bool, unhealthy: bool, late: bool)

  datatype Deployment = Deployment(revision: nat, snapshot: Snapshot, hostBindings: nat)

  function CountEntries(g: Generation): int
    reads g
  {
    |g.guestLns| + |g.udpEntries| - |g.reused|
  }

  function StreamsOf(g: Generation?): map<string, Socket>
    reads g
  {
    if g == null then map[] else g.guestLns
  }

  function UdpOf(g: Generation?): map<string, Socket>
    reads g
  {
    if g == null then map[] else g.udpEntries
  }

  /** The sockets of `g`, each under one name, are those open, each with one accept loop. */
  ghost predicate Owns(g: Generation, net: Net)
    reads g, net
  {
    && net.Valid() && g.guestLns.Keys !! g.udpEntries.Keys && Injective(g.Entries())
    && g.donated == {} && !g.stopping
    && net.open == g.Entries().Values && net.accepting == net.open
  }

  method StartGeneration(net: Net, gen: Generation)
    requires net.Valid() && Injective(gen.Entries()) && gen.Entries().Values <= net.open &&
             gen.Entries().Values !! net.accepting
    modifies net`accepting
    ensures net.Valid() && net.accepting == old(net.accepting) + gen.Entries().Values
  {
    var m := gen.guestLns + gen.udpEntries;
    var left := m.Keys;
    while left != {}
      invariant left <= m.Keys && net.Valid()
      invariant old(net.accepting) <= net.accepting <= old(net.accepting) + m.Values
      invariant forall n :: n in m ==> (n in left <==> m[n] !in net.accepting)
      decreases |left|
    {
      var name := Pick(left);
      net.StartAccept(m[name]);
      left := left - {name};
    }
  }

  /** Starts the only generation whose sockets are open. */
  method Serve(net: Net, gen: Generation)
    requires net.Valid() && gen.guestLns.Keys !! gen.udpEntries.Keys && Injective(gen.Entries())
    requires gen.donated == {} && !gen.stopping
    requires net.open == gen.Entries().Values && net.accepting == {}
    modifies net`accepting
    ensures Owns(gen, net)
  {
    StartGeneration(net, gen);
  }

  /** Ends the accept loops of a generation and closes the sockets it has not handed on. */
  method StopAccepting(net: Net, gen: Generation)
    requires net.Valid() && Injective(gen.Entries()) && gen.Entries().Values <= net.open
    modifies net`open, net`closed, net`accepting, gen`stopping
    ensures net.Valid() && net.open == old(net.open) - Others(gen.Entries(), gen.donated)
    ensures net.accepting == old(net.accepting) - gen.Entries().Values
  {
    gen.stopping := true;
    CloseAllBut(net, gen.guestLns + gen.udpEntries, gen.donated);
    StopLoops(net, gen.guestLns + gen.udpEntries);
    assert Others(gen.Entries(), gen.donated) <= gen.Entries().Values;
  }

  method StopLoops(net: Net, m: map<string, Socket>)
    requires net.Valid()
    modifies net`accepting
    ensures net.Valid() && net.accepting == old(net.accepting) - m.Values
  {
    var left := m.Keys;
    while left != {}
      invariant left <= m.Keys && net.Valid()
      invariant old(net.accepting) - m.Values <= net.accepting <= old(net.accepting)
      invariant forall n :: n in m && n !in left ==> m[n] !in net.accepting
      decreases |left|
    {
      var name := Pick(left);
      net.StopAccept(m[name]);
      left := left - {name};
    }
  }

  /** Closing all that was not handed on and counting all that was opened leaves the new entries. */
  lemma SwapBalances(m: map<string, Socket>, reused: set<string>, before: map<string, Socket>, now: set<Socket>)
    requires Opening(m, reused, before, before.Values, now) && Injective(before)
    ensures now - Others(before, reused) == m.Values && before.Values - m.Values == Others(before, reused)
    ensures Injective(m) && m.Values <= now && reused <= before.Keys
  {
    forall x | x in now - Others(before, reused) ensures x in m.Values {
      if x in before.Values {
        var n :| n in before && before[n] == x;
        assert n in reused && m[n] == x;
      }
    }
    forall x | x in m.Values ensures x in now && x !in Others(before, reused) {
      var n :| n in m && m[n] == x;
      if n in reused {
        assert before[n] in before.Values;
      } else {
        assert x in Others(m, reused);
      }
    }
  }

  /** The entry of the clients. It outlives all generations. */
  class ControlListener {
    var open: bool
    var accepting: bool

    constructor ()
      ensures open && !accepting
    {
      open, accepting := true, false;
    }
  }

  class Engine {
    const net: Net
    const first: Snapshot
    /** Over TCP the host provides the control entry; otherwise the engine opens its own. */
    const overTcp: bool
    var control: ControlListener?
    var state: EngineState
    var active: Generation?
    var lastGood: nat
    var applying: bool
    /** A generation is told to stop only once. */
    var stopDone: bool

    /** The engine's sockets are those of the active generation; none before and after it runs. */
    ghost predicate Valid()
      reads this, net, active
    {
      && net.Valid()
      && (state.Running? ==> active != null) && (stopDone ==> state.Stopped?)
      && (active != null && !state.Stopped? ==> Owns(active, net) && lastGood == active.revision)
      && (active == null || state.Stopped? ==> net.open == {} && net.accepting == {})
    }

    /** After a shutdown whose draining was cut short: nothing is open, but the engine is not stopped. */
    ghost predicate Halted()
      reads this, net
    {
      stopDone && net.Valid() && active != null && !state.Stopped? && net.open == {} && net.accepting == {}
    }

    constructor (first: Snapshot, overTcp: bool, control: ControlListener?, refuses: nat -> bool)
      ensures net.refuses == refuses
      ensures Valid() && fresh(net) && state == Idle && active == null && !applying && this.first == first
      ensures this.overTcp == overTcp && this.control == control
    {
      net := new Net(refuses);
      this.overTcp, this.control := overTcp, control;
      this.first, state, active, lastGood, applying, stopDone := first, Idle, null, 0, false, false;
    }

    /** The control entry to start on; a closed or missing one is of no use. */
    method OpenControl(busy: bool) returns (listener: ControlListener?, own: bool)
      modifies this`control
      ensures listener != null <==> if overTcp then old(control) != null && old(control.open) else !busy
      ensures own <==> !overTcp && listener != null
      ensures own ==> fresh(listener) && listener.open && !listener.accepting && control == listener
      ensures !own ==> control == old(control) && (listener != null ==> listener == control && listener.open)
    {
      if overTcp {
        return if control != null && control.open then control else null, false;
      }
      if busy {
        return null, false;
      }
      listener := new ControlListener();
      control, own := listener, true;
    }

    /** Opens every entry of the first configuration or none. A failure closes the control entry if the
        engine opened it and leaves that of the host alone. The entries of a configuration applied
        before are left open with no generation to close them. */
    method Start(otherProblem: bool, busy: bool) returns (ok: bool)
      requires Valid()
      modifies this, net, control
      ensures net.attempts >= old(net.attempts)
      ensures ok <==> !otherProblem && Validation.Valid(first.config) && old(state) == Idle &&
                      (if overTcp then old(control) != null && old(control.open) else !busy) &&
                      !net.Refused(old(net.attempts), net.attempts)
      ensures applying == old(applying) && net.Valid()
      ensures !ok ==> Valid() && state == old(state) && active == old(active) && net.open == old(net.open)
      ensures !ok && old(control) != null ==> unchanged(old(control))
      ensures !ok && control != old(control) ==> control != null && fresh(control) && !control.open
      ensures ok ==> control != null && control.open && control.accepting && (overTcp ==> control == old(control))
      ensures ok ==> old(state) == Idle && state == Running && active != null && fresh(active)
      ensures ok ==> active.revision == 0 && active.snapshot == first
      ensures ok ==> Serves(first, active.guestLns, active.udpEntries, map[], map[], old(net.addr), old(net.next))
      ensures ok ==> Listening(active.guestLns, net.addr, old(net.next), StreamWants(first))
      ensures ok ==> Listening(active.udpEntries, net.addr, old(net.next), UdpWants(first))
      ensures ok ==> AsConfigured(first, active.guestLns, active.udpEntries, net.addr)
      ensures ok ==> KeepsWhatFits(first, active.guestLns, active.udpEntries, map[], map[], old(net.addr), net.addr,
                                   old(net.open))
      ensures ok ==> net.open == old(net.open) + active.Entries().Values && old(net.open) !! active.Entries().Values
      ensures ok ==> (Valid() <==> old(net.open) == {})
    {
      hide Validation.Valid, Serves, Opening, Listening, AsConfigured, KeepsWhatFits;
      if otherProblem || !Validation.Valid(first.config) || state != Idle {
        return false;
      }
      var listener, own := OpenControl(busy);
      if listener == null {
        return false;
      }
      ok := StartEntries();
      if ok {
        listener.accepting := true;
      } else if own {
        listener.open := false;
      }
    }

    method StartEntries() returns (ok: bool)
      requires Valid() && Validation.Valid(first.config) && state == Idle
      modifies this`state, this`active, this`lastGood, net
      ensures net.Valid() && net.attempts >= old(net.attempts)
      ensures ok <==> !net.Refused(old(net.attempts), net.attempts)
      ensures !ok ==> Valid() && state == old(state) && active == old(active) && net.open == old(net.open)
      ensures ok ==> state == Running && active != null && fresh(active)
      ensures ok ==> active.revision == 0 && active.snapshot == first
      ensures ok ==> Serves(first, active.guestLns, active.udpEntries, map[], map[], old(net.addr), old(net.next))
      ensures ok ==> Listening(active.guestLns, net.addr, old(net.next), StreamWants(first))
      ensures ok ==> Listening(active.udpEntries, net.addr, old(net.next), UdpWants(first))
      ensures ok ==> AsConfigured(first, active.guestLns, active.udpEntries, net.addr)
      ensures ok ==> KeepsWhatFits(first, active.guestLns, active.udpEntries, map[], map[], old(net.addr), net.addr,
                                   old(net.open))
      ensures ok ==> net.open == old(net.open) + active.Entries().Values && old(net.open) !! active.Entries().Values
      ensures ok ==> (Valid() <==> old(net.open) == {})
    {
      hide Validation.Valid, AllHanded, Opening, Listening, AsConfigured, KeepsWhatFits;
      var gen := new Generation(0, first);
      var streams, udp, reused;
      ok, streams, udp, reused := OpenEntries(net, first, map[], map[], true);
      if !ok {
        return;
      }
      ghost var none: map<string, Socket> := map[];
      assert none + none == none;
      NothingReused(streams + udp, reused, old(net.open), net.open);
      ListeningAsConfigured(first, streams, udp, net.addr, old(net.next));
      ServesKeepsWhatFits(first, streams, udp, none, none, old(net.addr), net.addr, old(net.next), old(net.open));
      gen.guestLns, gen.udpEntries, gen.reused := streams, udp, reused;
      state, active, lastGood := Running, gen, gen.revision;
      StartGeneration(net, gen);
      OwnsFirst(gen, old(net.open));
    }

    lemma OwnsFirst(gen: Generation, before: set<Socket>)
      requires net.Valid() && gen.guestLns.Keys !! gen.udpEntries.Keys && Injective(gen.Entries())
      requires gen.donated == {} && !gen.stopping && net.accepting == net.open
      requires net.open == before + gen.Entries().Values && before !! gen.Entries().Values
      ensures Owns(gen, net) <==> before == {}
    {}

    /** The entries of a configuration that the active tables can hand over. */
    function Kept(s: Snapshot): set<string>
      reads this, net, active
    {
      KeptOf(s, StreamsOf(active), UdpOf(active), net.addr)
    }

    /** No UDP proxy of the configuration has an entry it could take over, unless the session parameters
        stay as they are. */
    predicate UdpFits(s: Snapshot)
      reads this, active, net
    {
      active != null && active.snapshot.udpParams != s.udpParams ==>
        forall b :: b in s.config.udp ==> !OpenOn(active.udpEntries, net.addr, b.name, s.host, b.port)
    }

    /** Nothing a host or a visitor could notice has changed. */
    twostate predicate Untouched()
      reads this, net, active
    {
      && active == old(active) && lastGood == old(lastGood)
      && net.open == old(net.open) && net.accepting == old(net.accepting)
      && (active != null ==> SameTables(active))
    }

    /** The new configuration is in service: every entry listens on its address; every entry whose name
        and address stay has kept its socket and counts as reused, and no other; for UDP the session
        parameters must stay too. */
    twostate predicate Switched(d: Deployment)
      reads this, active, net
    {
      && active != null && fresh(active)
      && active.revision == d.revision && active.snapshot == d.snapshot && lastGood == d.revision
      && Serves(d.snapshot, active.guestLns, active.udpEntries, old(StreamsOf(active)), old(UdpOf(active)),
                old(net.addr), old(net.next))
      && active.reused == old(Kept(d.snapshot))
      && Listening(active.guestLns, net.addr, old(net.next), StreamWants(d.snapshot))
      && Listening(active.udpEntries, net.addr, old(net.next), UdpWants(d.snapshot))
      && (old(active) != null && d.snapshot.udpParams != old(active).snapshot.udpParams ==>
            NoneReusable(old(UdpOf(active)), old(net.addr), UdpWants(d.snapshot)))
    }

    /** The same, proxy by proxy: every entry is open where the configuration has it, on its old socket if
        that was open there and on a new one otherwise. */
    twostate predicate Reopened(d: Deployment)
      requires active != null
      reads this, active, net
    {
      && AsConfigured(d.snapshot, active.guestLns, active.udpEntries, net.addr)
      && KeepsWhatFits(d.snapshot, active.guestLns, active.udpEntries, old(StreamsOf(active)), old(UdpOf(active)),
                       old(net.addr), net.addr, old(net.open))
    }

    twostate lemma SwitchedIsReopened(d: Deployment)
      requires old(Valid()) && Switched(d)
      ensures Reopened(d)
    {
      hide AllHanded, NoneReusable, KeptOf, Listening, AsConfigured, KeepsWhatFits, Injective;
      ListeningAsConfigured(d.snapshot, active.guestLns, active.udpEntries, net.addr, old(net.next));
      ServesKeepsWhatFits(d.snapshot, active.guestLns, active.udpEntries, old(StreamsOf(active)), old(UdpOf(active)),
                          old(net.addr), net.addr, old(net.next), old(net.open));
    }

    /** Every socket the configuration needs could be had: no attempt to bind one was refused, and no UDP
        entry would have to go on with other session parameters. */
    twostate predicate Opened(d: Deployment)
      reads net
    {
      !net.Refused(old(net.attempts), net.attempts) && old(UdpFits(d.snapshot))
    }

    twostate function Failure(d: Deployment, f: Faults): Option<Stage>
      reads net
    {
      if !Opened(d) || f.cancelled then Some(PrepareStage) else if f.unhealthy then Some(HealthCheckStage) else None
    }

    /** An application is let in: its configuration is valid, the engine is not stopped, and the revision
        is not older than the active one. */
    predicate Admits(d: Deployment, f: Faults)
      reads this, active
    {
      && !f.otherProblem && Validation.Valid(d.snapshot.config) && d.hostBindings == 0 && !state.Stopped?
      && (active != null ==> d.revision >= active.revision)
    }

    /** What an application needs to succeed; the same revision again needs no more than to be let in. */
    twostate predicate Succeeds(d: Deployment, f: Faults)
      reads this, net
    {
      && old(Admits(d, f))
      && ((old(active) != null && d.revision == old(active.revision)) || Failure(d, f).None?)
    }

    /** The result tells which revision replaced which, and how far the application got. */
    twostate predicate Reported(d: Deployment, f: Faults, r: ApplyResult)
      reads this, net
    {
      match r
      case InProgress => false
      case Failed(stage) =>
        if !old(Admits(d, f)) then stage == ValidateStage else Failure(d, f) == Some(stage)
      case Done(stage, revision, previous, _, _) =>
        && revision == d.revision && previous == (if old(active) == null then 0 else old(active.revision))
        && stage == (if f.late && old(active) != null && d.revision != old(active.revision) then AppliedStage
                     else DrainedStage)
    }

    /** Applies a complete configuration. A failure, at whatever stage, leaves the active
        configuration and its sockets as they were, and so does applying the same revision again. */
    method Apply(d: Deployment, f: Faults) returns (r: ApplyResult)
      requires Valid()
      modifies this, net, active
      ensures net.attempts >= old(net.attempts)
      ensures r.InProgress? <==> d.revision != 0 && old(applying)
      ensures d.revision == 0 ==> r == Failed(ValidateStage)
      ensures d.revision != 0 && !old(applying) ==> (r.Done? <==> Succeeds(d, f)) && Reported(d, f, r)
      ensures Valid() && state == old(state) && applying == old(applying) && Extends(old(net.addr), net.addr)
      ensures !r.Done? ==> Untouched()
      ensures r.Done? && old(active) != null ==> d.revision >= old(active).revision
      ensures r.Done? && old(active) != null && d.revision == old(active).revision ==> Untouched()
      ensures r.Done? && (old(active) == null || d.revision > old(active).revision) ==>
                Switched(d) && Reopened(d) && r.changed == EntryCount(d.snapshot) - |old(Kept(d.snapshot))|
      ensures r.Done? && old(active) != null && d.revision > old(active).revision ==>
                r.drained - |old(net.open) - net.open| == |old(Kept(d.snapshot))| - |old(active.reused)|
    {
      hide Validation.Valid, Serves, NoneReusable, Listening, KeptOf, Others, Injective, CountEntries, Owns,
           AsConfigured, KeepsWhatFits;
      if d.revision == 0 {
        return Failed(ValidateStage);
      }
      if applying {
        return InProgress;
      }
      applying := true;
      var previous := if active == null then 0 else active.revision;
      r := ApplyAlone(d, f, previous);
      applying := false;
    }

    method ApplyAlone(d: Deployment, f: Faults, previous: nat) returns (r: ApplyResult)
      requires Valid() && previous == if active == null then 0 else active.revision
      modifies this`active, this`lastGood, net, active
      ensures net.attempts >= old(net.attempts) && (r.Done? <==> Succeeds(d, f)) && Reported(d, f, r)
      ensures Valid() && Extends(old(net.addr), net.addr)
      ensures !r.Done? ==> r.Failed? && Untouched()
      ensures r.Done? && old(active) != null ==> d.revision >= old(active).revision
      ensures r.Done? && old(active) != null && d.revision == old(active).revision ==> Untouched()
      ensures r.Done? && (old(active) == null || d.revision > old(active).revision) ==>
                Switched(d) && Reopened(d) && r.changed == EntryCount(d.snapshot) - |old(Kept(d.snapshot))|
      ensures r.Done? && old(active) != null && d.revision > old(active).revision ==>
                r.drained - |old(net.open) - net.open| == |old(Kept(d.snapshot))| - |old(active.reused)|
    {
      hide Validation.Valid, Serves, NoneReusable, Listening, KeptOf, Others, Injective, CountEntries, AsConfigured,
           KeepsWhatFits;
      if f.otherProblem || !Validation.Valid(d.snapshot.config) || d.hostBindings > 0 || state.Stopped? {
        return Failed(ValidateStage);
      }
      if active != null && d.revision == active.revision {
        return Done(DrainedStage, d.revision, previous, 0, 0);
      }
      if active != null && d.revision < active.revision {
        return Failed(ValidateStage);
      }
      r := Replace(d, f, previous);
    }

    /** Prepares a generation and, if nothing stands in the way, puts it in place of the active one. The
        count of drained entries misses the number of sockets closed by as many entries as the old
        generation hands on more than it had taken over. */
    method Replace(d: Deployment, f: Faults, previous: nat) returns (r: ApplyResult)
      requires Valid() && Validation.Valid(d.snapshot.config) && !state.Stopped?
      modifies this`active, this`lastGood, net, active
      ensures net.attempts >= old(net.attempts) && (r.Done? <==> Opened(d) && !f.cancelled && !f.unhealthy)
      ensures r.Failed? ==> r.stage == if Opened(d) && !f.cancelled then HealthCheckStage else PrepareStage
      ensures r.Done? ==> r.revision == d.revision && r.previous == previous
      ensures r.Done? ==> r.stage == if f.late && old(active) != null then AppliedStage else DrainedStage
      ensures Valid() && Extends(old(net.addr), net.addr)
      ensures !r.Done? ==> r.Failed? && Untouched()
      ensures r.Done? ==>
                Switched(d) && Reopened(d) && r.changed == EntryCount(d.snapshot) - |old(Kept(d.snapshot))|
      ensures r.Done? && old(active) != null ==>
                r.drained - |old(net.open) - net.open| == |old(Kept(d.snapshot))| - |old(active.reused)|
    {
      hide Validation.Valid, Serves, NoneReusable, Listening, KeptOf, CountEntries, EntryCount, Extends, Owns,
           Publishable, AsConfigured, KeepsWhatFits;
      var gen, failed := PrepareOrRestore(d, f);
      if failed.Some? {
        return Failed(failed.value);
      }
      r := Publish(gen, f, previous);
      SwitchedIsReopened(d);
    }

    /** A generation ready to take the place of the active one. */
    twostate predicate Prepared(new gen: Generation, d: Deployment)
      reads this, net, active, gen
    {
      && Publishable(gen) && gen.reused == old(Kept(d.snapshot))
      && CountEntries(gen) == EntryCount(d.snapshot) - |gen.reused|
      && (active != null ==>
            CountEntries(active) - |old(net.open) - gen.Entries().Values| == |gen.reused| - |active.reused|)
      && Listening(gen.guestLns, net.addr, old(net.next), StreamWants(d.snapshot))
      && Listening(gen.udpEntries, net.addr, old(net.next), UdpWants(d.snapshot))
      && Serves(d.snapshot, gen.guestLns, gen.udpEntries, StreamsOf(active), UdpOf(active),
                old(net.addr), old(net.next))
      && (active != null && d.snapshot.udpParams != active.snapshot.udpParams ==>
            NoneReusable(UdpOf(active), old(net.addr), UdpWants(d.snapshot)))
    }

    /** A failed preparation leaves everything as it was. */
    method PrepareOrRestore(d: Deployment, f: Faults) returns (gen: Generation, failed: Option<Stage>)
      requires Valid() && Validation.Valid(d.snapshot.config) && !state.Stopped?
      modifies net
      ensures net.attempts >= old(net.attempts) && failed == Failure(d, f)
      ensures Extends(old(net.addr), net.addr)
      ensures fresh(gen) && gen.revision == d.revision && gen.snapshot == d.snapshot
      ensures if failed.Some? then Valid() && Untouched() else Prepared(gen, d)
    {
      hide Validation.Valid, Prepared, Extends;
      gen, failed := Prepare(d, f);
    }

    /** Opens the entries of the new generation; gives them back if anything fails before the
        switch. */
    method Prepare(d: Deployment, f: Faults) returns (gen: Generation, failed: Option<Stage>)
      requires Valid() && Validation.Valid(d.snapshot.config) && !state.Stopped?
      modifies net
      ensures net.attempts >= old(net.attempts) && failed == Failure(d, f)
      ensures net.Valid() && net.accepting == old(net.accepting) && Extends(old(net.addr), net.addr)
      ensures fresh(gen) && gen.revision == d.revision && gen.snapshot == d.snapshot
      ensures if failed.Some? then net.open == old(net.open) else Prepared(gen, d)
    {
      hide Validation.Valid, Prepared, Others;
      var ok;
      gen, ok := OpenGeneration(d);
      failed := if ok then None else Some(PrepareStage);
      if ok {
        if f.cancelled {
          failed := Some(PrepareStage);
        } else if f.unhealthy {
          failed := Some(HealthCheckStage);
        }
        if failed.Some? {
          Release(gen);
        }
      }
    }

    method OpenGeneration(d: Deployment) returns (gen: Generation, ok: bool)
      requires Valid() && Validation.Valid(d.snapshot.config) && !state.Stopped?
      modifies net
      ensures net.Valid() && net.accepting == old(net.accepting) && Extends(old(net.addr), net.addr)
      ensures fresh(gen) && gen.revision == d.revision && gen.snapshot == d.snapshot
      ensures !ok ==> net.open == old(net.open)
      ensures ok ==> Prepared(gen, d) && Undoable(gen)
      ensures net.attempts >= old(net.attempts) && (ok <==> Opened(d))
    {
      hide Validation.Valid, Serves, NoneReusable, KeptOf, Others, Opening, Listening, EntryCount, Injective, Owns,
           Prepared, Undoable, Extends;
      TablesAreOpen();
      NoneReusableMeans(d.snapshot, UdpOf(active), net.addr);
      gen := new Generation(d.revision, d.snapshot);
      var paramsMatch := active == null || active.snapshot.udpParams == d.snapshot.udpParams;
      var streams, udp, reused;
      ok, streams, udp, reused := OpenEntries(net, d.snapshot, StreamsOf(active), UdpOf(active), paramsMatch);
      if ok {
        gen.guestLns, gen.udpEntries, gen.reused := streams, udp, reused;
        IsPrepared(gen, d);
      }
    }

    /** What a generation has opened for itself can be closed again. */
    twostate predicate Undoable(new gen: Generation)
      reads net, gen
    {
      && Injective(gen.Entries()) && Others(gen.Entries(), gen.reused) <= net.open
      && net.open - Others(gen.Entries(), gen.reused) == old(net.open)
      && net.accepting !! Others(gen.Entries(), gen.reused)
    }

    twostate lemma IsPrepared(new gen: Generation, d: Deployment)
      requires old(Valid()) && !old(state).Stopped? && unchanged(this) && (active != null ==> unchanged(active))
      requires net.Valid() && net.accepting == old(net.accepting) && gen.donated == {} && !gen.stopping
      requires gen.guestLns.Keys !! gen.udpEntries.Keys
      requires Serves(d.snapshot, gen.guestLns, gen.udpEntries, StreamsOf(active), UdpOf(active), old(net.addr),
                      old(net.next))
      requires Opening(gen.guestLns + gen.udpEntries, gen.reused, StreamsOf(active) + UdpOf(active), old(net.open),
                       net.open)
      requires Listening(gen.guestLns, net.addr, old(net.next), StreamWants(d.snapshot))
      requires Listening(gen.udpEntries, net.addr, old(net.next), UdpWants(d.snapshot))
      requires active != null && d.snapshot.udpParams != active.snapshot.udpParams ==>
                 NoneReusable(UdpOf(active), old(net.addr), UdpWants(d.snapshot))
      ensures Prepared(gen, d) && Undoable(gen)
    {
      hide Valid, Publishable, Undoable, Balanced, Serves, NoneReusable, Opening, Listening, Kept, EntryCount,
           CountEntries, Owns, Others;
      SpaceHere(gen);
      CountsHere(gen, d);
      IsPublishable(gen);
    }

    twostate lemma SpaceHere(new gen: Generation)
      requires old(Valid()) && !old(state).Stopped? && unchanged(this) && (active != null ==> unchanged(active))
      requires net.accepting == old(net.accepting)
      requires Opening(gen.Entries(), gen.reused, StreamsOf(active) + UdpOf(active), old(net.open), net.open)
      ensures Undoable(gen) && Balanced(gen)
      ensures active != null ==>
                CountEntries(active) - |old(net.open) - gen.Entries().Values| == |gen.reused| - |active.reused|
    {
      hide Validation.Valid, Others, Opening, Injective;
      ghost var before := StreamsOf(active) + UdpOf(active);
      assert before.Values == old(net.open) && Injective(before) && old(net.accepting) == before.Values by {
        hide *;
        TablesWereOpen();
      }
      SpaceFacts(gen.Entries(), gen.reused, before, net.open);
      TableSizes(StreamsOf(active), UdpOf(active));
    }

    twostate lemma CountsHere(new gen: Generation, d: Deployment)
      requires old(Valid()) && !old(state).Stopped? && unchanged(this) && (active != null ==> unchanged(active))
      requires gen.guestLns.Keys !! gen.udpEntries.Keys
      requires Serves(d.snapshot, gen.guestLns, gen.udpEntries, StreamsOf(active), UdpOf(active), old(net.addr),
                      old(net.next))
      requires Opening(gen.Entries(), gen.reused, StreamsOf(active) + UdpOf(active), old(net.open), net.open)
      ensures gen.reused == old(Kept(d.snapshot))
      ensures CountEntries(gen) == EntryCount(d.snapshot) - |gen.reused|
    {
      hide Validation.Valid, AllHanded, KeptOf, Others, Opening, Injective, StreamWants, UdpWants;
      TablesWereOpen();
      KeptIsReused(d.snapshot, gen.guestLns, gen.udpEntries, gen.reused, StreamsOf(active), UdpOf(active),
                   old(net.addr), old(net.next), net.open);
      assert |gen.guestLns| == |gen.guestLns.Keys| && |gen.udpEntries| == |gen.udpEntries.Keys|;
    }

    twostate lemma TablesWereOpen()
      requires old(Valid()) && !old(state).Stopped? && unchanged(this) && (active != null ==> unchanged(active))
      ensures var before := StreamsOf(active) + UdpOf(active);
              && before.Values == old(net.open) && before.Values == old(net.accepting) && Injective(before)
              && StreamsOf(active).Keys !! UdpOf(active).Keys
              && (forall x: Socket :: x in before.Values ==> x < old(net.next))
    {}

    twostate lemma IsPublishable(new gen: Generation)
      requires old(Valid()) && !old(state).Stopped? && unchanged(this) && (active != null ==> unchanged(active))
      requires net.Valid() && net.accepting == old(net.accepting) && gen.donated == {} && !gen.stopping
      requires gen.guestLns.Keys !! gen.udpEntries.Keys && Balanced(gen)
      ensures Publishable(gen)
    {
      hide Balanced, Others;
    }

    /** The active tables hold just the open sockets. */
    lemma TablesAreOpen()
      requires Valid() && !state.Stopped?
      ensures var before := StreamsOf(active) + UdpOf(active);
              && before.Values == net.open && Injective(before) && StreamsOf(active).Keys !! UdpOf(active).Keys
              && (forall x: Socket :: x in before.Values ==> x < net.next) && Replaceable()
    {}

    /** Once the active generation closes what `gen` has not taken over, just the entries of `gen`
        are open. */
    ghost predicate Balanced(gen: Generation)
      reads this, active, net, gen
    {
      && Injective(gen.Entries()) && gen.Entries().Values <= net.open
      && net.open - (if active == null then {} else Others(active.Entries(), gen.reused)) == gen.Entries().Values
    }

    /** The active generation has one accept loop for each of its sockets, and hands nothing on yet. */
    ghost predicate Replaceable()
      reads this, active, net
    {
      if active == null then net.accepting == {}
      else Injective(active.Entries()) && active.donated == {} && net.accepting == active.Entries().Values
    }

    /** The new generation can take the place of the active one. */
    ghost predicate Publishable(gen: Generation)
      reads this, active, net, gen
    {
      && net.Valid() && !state.Stopped? && !stopDone && gen.donated == {} && !gen.stopping
      && Replaceable() && gen.guestLns.Keys !! gen.udpEntries.Keys && Balanced(gen)
    }

    /** Switches to the new generation: the old one stops first, so that no socket ever has two
        accept loops. */
    method Publish(gen: Generation, f: Faults, previous: nat) returns (r: ApplyResult)
      requires gen != active && Publishable(gen)
      modifies this`active, this`lastGood, net`open, net`closed, net`accepting, active
      ensures Valid() && active == gen && lastGood == gen.revision && net.open == gen.Entries().Values
      ensures r.Done? && r.revision == gen.revision && r.previous == previous && r.changed == CountEntries(gen)
      ensures r.drained == if old(active) == null then 0 else old(CountEntries(active))
      ensures r.stage == if f.late && old(active) != null then AppliedStage else DrainedStage
    {
      hide Others, Injective, CountEntries, Validation.Valid;
      var leaving, drained := active, 0;
      active, lastGood := gen, gen.revision;
      if leaving != null {
        HandOver(leaving, gen.reused);
        drained := CountEntries(leaving);
      }
      Serve(net, gen);
      assert Valid() by {
        assert Owns(active, net);
      }
      var stage := if f.late && leaving != null then AppliedStage else DrainedStage;
      r := Done(stage, gen.revision, previous, CountEntries(gen), drained);
    }

    method HandOver(leaving: Generation, reused: set<string>)
      requires net.Valid() && Injective(leaving.Entries()) && leaving.donated == {}
      requires net.accepting == leaving.Entries().Values
      modifies net`open, net`closed, net`accepting, leaving`donated, leaving`stopping
      ensures net.Valid() && net.accepting == {} && leaving.donated == reused
      ensures CountEntries(leaving) == old(CountEntries(leaving))
      ensures net.open == old(net.open) - Others(leaving.Entries(), reused)
    {
      leaving.donated := leaving.donated + reused;
      StopAccepting(net, leaving);
    }

    /** Releases what a generation opened for itself; entries it took over are not its own yet. */
    method Release(gen: Generation)
      requires net.Valid() && Injective(gen.Entries()) && Others(gen.Entries(), gen.reused) <= net.open
      modifies net`open, net`closed, net`accepting
      ensures net.Valid() && net.open == old(net.open) - Others(gen.Entries(), gen.reused)
      ensures net.accepting == old(net.accepting) - Others(gen.Entries(), gen.reused)
    {
      CloseAllBut(net, gen.guestLns + gen.udpEntries, gen.reused);
    }

    /** Closes the control entry and, the first time, every socket. If draining is cut short, the engine
        is not marked as stopped; a later call may do that. */
    method Shutdown(cutShort: bool) returns (drained: bool)
      requires Valid() || Halted()
      modifies this, net, active, control
      ensures net.open == {} && active == old(active) && (control != null ==> !control.open)
      ensures drained <==> !cutShort || active == null
      ensures drained ==> Valid() && state == Stopped
      ensures !drained ==> state == old(state) && active != null && (Halted() || Valid())
    {
      if control != null {
        control.open, control.accepting := false, false;
      }
      if active != null && !stopDone {
        if !state.Stopped? {
          assert Others(active.Entries(), {}) == active.Entries().Values;
          StopAccepting(net, active);
        }
        stopDone := true;
      }
      drained := !cutShort || active == null;
      if drained {
        state := Stopped;
      }
    }
  }

  lemma NothingReused(m: map<string, Socket>, reused: set<string>, start: set<Socket>, now: set<Socket>)
    requires Opening(m, reused, map[], start, now)
    ensures Injective(m) && reused == {} && now == start + m.Values && start !! m.Values
  {
    assert forall n :: n !in reused;
    assert Others(m, reused) == m.Values;
  }

  /** Any sequence of applications, each succeeding or failing anywhere: afterwards the sockets open
      are those of the active generation, the revision has not gone back, and every entry asked for all
      along, stream or UDP, has kept its one socket. A closed socket id never opens again, so it
      stayed open. */
  method ApplyAll(engine: Engine, ds: seq<Deployment>, fs: seq<Faults>, ghost streams: set<Want>, ghost udp: set<Want>)
    requires engine.Valid() && engine.active != null && |fs| == |ds|
    requires AllReusable(engine.active.guestLns, engine.net.addr, streams)
    requires AllReusable(engine.active.udpEntries, engine.net.addr, udp)
    requires forall d :: d in ds ==> (forall w :: w in streams ==> w in StreamWants(d.snapshot))
    requires forall d :: d in ds ==> (forall w :: w in udp ==> w in UdpWants(d.snapshot))
    modifies engine, engine.net, engine.active
    ensures engine.Valid() && engine.state == old(engine.state) && engine.active != null
    ensures engine.active.revision >= old(engine.active.revision)
    ensures SameSockets(engine.active.guestLns, old(engine.active.guestLns), streams)
    ensures SameSockets(engine.active.udpEntries, old(engine.active.udpEntries), udp)
  {
    ghost var streams0, udp0 := engine.active.guestLns, engine.active.udpEntries;
    for k := 0 to |ds|
      invariant engine.Valid() && engine.state == old(engine.state) && engine.active != null
      invariant engine.active == old(engine.active) || fresh(engine.active)
      invariant engine.active.revision >= old(engine.active.revision)
      invariant AllReusable(engine.active.guestLns, engine.net.addr, streams)
      invariant AllReusable(engine.active.udpEntries, engine.net.addr, udp)
      invariant SameSockets(engine.active.guestLns, streams0, streams)
      invariant SameSockets(engine.active.udpEntries, udp0, udp)
    {
      assert ds[k] in ds;
      ApplyNext(engine, ds[k], fs[k], streams, udp);
    }
  }

  ghost predicate AllReusable(m: map<string, Socket>, addr: map<Socket, Addr>, wants: set<Want>) {
    forall w :: w in wants ==> Reusable(m, addr, w.name, w.addr)
  }

  ghost predicate SameSockets(m: map<string, Socket>, before: map<string, Socket>, wants: set<Want>) {
    forall w :: w in wants ==> w.name in m && w.name in before && m[w.name] == before[w.name]
  }

  method ApplyNext(engine: Engine, d: Deployment, f: Faults, ghost streams: set<Want>, ghost udp: set<Want>)
    requires engine.Valid() && engine.active != null
    requires AllReusable(engine.active.guestLns, engine.net.addr, streams)
    requires AllReusable(engine.active.udpEntries, engine.net.addr, udp)
    requires forall w :: w in streams ==> w in StreamWants(d.snapshot)
    requires forall w :: w in udp ==> w in UdpWants(d.snapshot)
    modifies engine, engine.net, engine.active
    ensures engine.Valid() && engine.state == old(engine.state) && engine.active != null
    ensures engine.active == old(engine.active) || fresh(engine.active)
    ensures engine.active.revision >= old(engine.active.revision)
    ensures AllReusable(engine.active.guestLns, engine.net.addr, streams)
    ensures AllReusable(engine.active.udpEntries, engine.net.addr, udp)
    ensures SameSockets(engine.active.guestLns, old(engine.active.guestLns), streams)
    ensures SameSockets(engine.active.udpEntries, old(engine.active.udpEntries), udp)
  {
    var _ := engine.Apply(d, f);
  }

  ghost function Image(m: map<string, Socket>, names: set<string>): set<Socket>
    requires names <= m.Keys
  {
    set n | n in names :: m[n]
  }

  lemma {:induction false} ImageSize(m: map<string, Socket>, names: set<string>)
    requires Injective(m) && names <= m.Keys
    ensures |Image(m, names)| == |names|
    decreases |names|
  {
    if names != {} {
      var n :| n in names;
      var rest := names - {n};
      ImageSize(m, rest);
      assert Image(m, names) == Image(m, rest) + {m[n]} && m[n] !in Image(m, rest);
    }
  }

  lemma OthersSize(m: map<string, Socket>, reused: set<string>)
    requires Injective(m) && reused <= m.Keys
    ensures |Others(m, reused)| == |m.Keys| - |reused|
  {
    ImageSize(m, m.Keys - reused);
    assert Others(m, reused) == Image(m, m.Keys - reused);
    assert |m.Keys - reused| == |m.Keys| - |reused|;
  }

  /** How many entries a configuration has. */
  function EntryCount(s: Snapshot): int { |NamesOf(StreamWants(s))| + |NamesOf(UdpWants(s))| }

  /** The entries wanted that stand in the old tables under the same name, on the same address. */
  function KeptOf(s: Snapshot, streams: map<string, Socket>, udp: map<string, Socket>,
                  addr: map<Socket, Addr>): set<string>
  {
    (set w | w in StreamWants(s) && Reusable(streams, addr, w.name, w.addr) :: w.name) +
    (set w | w in UdpWants(s) && Reusable(udp, addr, w.name, w.addr) :: w.name)
  }

  /** What has been taken over is what could be. */
  lemma KeptIsReused(s: Snapshot, streams: map<string, Socket>, udp: map<string, Socket>, reused: set<string>,
                     oldStreams: map<string, Socket>, oldUdp: map<string, Socket>,
                     addr: map<Socket, Addr>, unused: Socket, now: set<Socket>)
    requires Serves(s, streams, udp, oldStreams, oldUdp, addr, unused) && streams.Keys !! udp.Keys
    requires oldStreams.Keys !! oldUdp.Keys
    requires Opening(streams + udp, reused, oldStreams + oldUdp, (oldStreams + oldUdp).Values, now)
    requires forall x: Socket :: x in (oldStreams + oldUdp).Values ==> x < unused
    ensures reused == KeptOf(s, oldStreams, oldUdp, addr)
  {
    var before := oldStreams + oldUdp;
    forall n | n in reused ensures n in KeptOf(s, oldStreams, oldUdp, addr) {
      assert before[n] in before.Values;
      if n in streams {
        var w :| w in StreamWants(s) && w.name == n;
      } else {
        var w :| w in UdpWants(s) && w.name == n;
      }
    }
    forall n | n in KeptOf(s, oldStreams, oldUdp, addr) ensures n in reused {
      KeptHasSocket(s, streams, udp, oldStreams, oldUdp, addr, unused, n);
    }
  }

  /** Closing what was opened anew restores the old tables; closing what the old tables keep leaves
      the new ones. */
  lemma SpaceFacts(m: map<string, Socket>, reused: set<string>, before: map<string, Socket>, now: set<Socket>)
    requires Opening(m, reused, before, before.Values, now) && Injective(before)
    ensures Injective(m) && m.Values <= now && now - Others(before, reused) == m.Values
    ensures Others(m, reused) <= now && now - Others(m, reused) == before.Values && before.Values !! Others(m, reused)
    ensures |before.Values - m.Values| == |before.Keys| - |reused|
    ensures before == map[] ==> now == m.Values
  {
    Undo(m, reused, before, before.Values, now);
    SwapBalances(m, reused, before, now);
    OthersSize(before, reused);
    hide Injective, Opening;
    assert before == map[] ==> Others(before, reused) == {};
  }

  lemma TableSizes(a: map<string, Socket>, b: map<string, Socket>)
    requires a.Keys !! b.Keys
    ensures |(a + b).Keys| == |a| + |b|
  {
    assert (a + b).Keys == a.Keys + b.Keys;
  }

  lemma KeptHasSocket(s: Snapshot, streams: map<string, Socket>, udp: map<string, Socket>,
                      oldStreams: map<string, Socket>, oldUdp: map<string, Socket>,
                      addr: map<Socket, Addr>, unused: Socket, n: string)
    requires Serves(s, streams, udp, oldStreams, oldUdp, addr, unused) && streams.Keys !! udp.Keys
    requires oldStreams.Keys !! oldUdp.Keys && n in KeptOf(s, oldStreams, oldUdp, addr)
    ensures n in streams + udp && (streams + udp)[n] in (oldStreams + oldUdp).Values
  {
    if w :| w in StreamWants(s) && Reusable(oldStreams, addr, w.name, w.addr) && w.name == n {
      assert streams[n] == oldStreams[n] == (oldStreams + oldUdp)[n];
    } else {
      var w :| w in UdpWants(s) && Reusable(oldUdp, addr, w.name, w.addr) && w.name == n;
      assert udp[n] == oldUdp[n] == (oldStreams + oldUdp)[n];
    }
  }

  /** The tables of a generation in service are not touched. */
  twostate predicate SameTables(g: Generation)
    reads g
  {
    g.guestLns == old(g.guestLns) && g.udpEntries == old(g.udpEntries) && g.reused == old(g.reused)
  }
}
