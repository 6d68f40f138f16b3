/** Pairing of visitors with the work connections of the client that serves them. */
module Broker {
  import opened Wrappers
  import opened Bytes

  type Conn = nat

  const MAX_PENDING_GUEST := 64
  const MAX_PAIR_RETRIES := 32
  const MAX_IDLE_WORK_CONN_LIMIT := 16

  /** A waiting visitor and the bytes already read from it that its target must still get. */
  datatype Guest = Guest(conn: Conn, pending: bytes)

  datatype Pairing = Pairing(guest: Guest, work: Conn)

  datatype ParkOutcome = Paired(pair: Pairing) | Staged | Rejected | CapacityFull

  /** The idle work connections of every proxy, oldest first. */
  datatype Pool = Pool(limit: nat, staged: map<string, seq<Conn>>, closed: bool)

  datatype Desk = Desk(guests: map<string, seq<Guest>>, works: Pool, closed: bool, rejected: nat)

  /** The queue of a proxy; a proxy without an entry has an empty one. */
  function At<T>(queues: map<string, seq<T>>, name: string): seq<T> {
    if name in queues then queues[name] else []
  }

  /** The queues with one of them replaced; empty queues are not kept. */
  function With<T>(queues: map<string, seq<T>>, name: string, queue: seq<T>): (r: map<string, seq<T>>)
    ensures At(r, name) == queue
    ensures forall other :: other != name ==> At(r, other) == At(queues, other)
  {
    if queue == [] then queues - {name} else queues[name := queue]
  }

  function Newest(queue: seq<Conn>, limit: nat): seq<Conn> {
    if |queue| > limit then queue[|queue| - limit..] else queue
  }

  function Surplus(queue: seq<Conn>, limit: nat): seq<Conn> {
    if |queue| > limit then queue[..|queue| - limit] else []
  }

  ghost function Members(queue: seq<Conn>): set<Conn> { set c | c in queue }

  ghost function Everyone(queues: map<string, seq<Conn>>): set<Conn> {
    set name, c | name in queues && c in queues[name] :: c
  }

  lemma EveryoneBut(queues: map<string, seq<Conn>>, name: string)
    requires name in queues
    ensures Everyone(queues) == Members(queues[name]) + Everyone(queues - {name})
    ensures |(queues - {name}).Keys| < |queues.Keys|
  {
    assert (queues - {name}).Keys == queues.Keys - {name};
    forall c | c in Everyone(queues) ensures c in Members(queues[name]) + Everyone(queues - {name}) {
      var other :| other in queues && c in queues[other];
      if other != name {
        var rest := queues - {name};
        assert other in rest && c in rest[other];
      }
    }
  }

  ghost function Conns(queue: seq<Guest>): seq<Conn> { seq(|queue|, i requires 0 <= i < |queue| => queue[i].conn) }

  ghost function EveryGuest(queues: map<string, seq<Guest>>): set<Conn> {
    set name, g | name in queues && g in queues[name] :: g.conn
  }

  lemma GuestsBut(queues: map<string, seq<Guest>>, name: string)
    requires name in queues
    ensures EveryGuest(queues) == Members(Conns(queues[name])) + EveryGuest(queues - {name})
    ensures |(queues - {name}).Keys| < |queues.Keys|
  {
    var rest := queues - {name};
    assert rest.Keys == queues.Keys - {name};
    forall c | c in EveryGuest(queues) ensures c in Members(Conns(queues[name])) + EveryGuest(rest) {
      var other, g :| other in queues && g in queues[other] && c == g.conn;
      if other != name {
        assert other in rest && g in rest[other];
      } else {
        var i :| 0 <= i < |queues[name]| && queues[name][i] == g;
        assert Conns(queues[name])[i] == c;
      }
    }
    forall c | c in Members(Conns(queues[name])) ensures c in EveryGuest(queues) {
      var i :| 0 <= i < |queues[name]| && Conns(queues[name])[i] == c;
      assert queues[name][i] in queues[name];
    }
  }

  // The operations on values.

  function Pushed(p: Pool, name: string, work: Conn): Pool {
    if p.closed then p
    else p.(staged := With(p.staged, name, Newest(At(p.staged, name) + [work], p.limit)))
  }

  /** A pool within its limit that takes one more gives up at most one, the oldest. */
  lemma PushIsExact(p: Pool, name: string, work: Conn)
    requires !p.closed && |At(p.staged, name)| <= p.limit
    ensures var queue := At(p.staged, name);
            && At(Pushed(p, name, work).staged, name) == (if |queue| < p.limit then queue + [work]
                                                          else if queue == [] then [] else queue[1..] + [work])
            && Surplus(queue + [work], p.limit) == (if |queue| < p.limit then []
                                                    else if queue == [] then [work] else [queue[0]])
  {}

  function Popped(p: Pool, name: string): Pool {
    var queue := At(p.staged, name);
    if queue == [] then p else p.(staged := With(p.staged, name, queue[1..]))
  }

  function Emptied(p: Pool): Pool {
    if p.closed then p else p.(staged := map[], closed := true)
  }

  function GuestOutcome(d: Desk, name: string, guest: Guest): ParkOutcome {
    if d.closed then Rejected
    else if At(d.works.staged, name) != [] then Paired(Pairing(guest, At(d.works.staged, name)[0]))
    else if |At(d.guests, name)| >= MAX_PENDING_GUEST then CapacityFull
    else Staged
  }

  function GuestParked(d: Desk, name: string, guest: Guest): Desk {
    match GuestOutcome(d, name, guest)
    case Rejected => d
    case Paired(_) => d.(works := Popped(d.works, name))
    case CapacityFull => d.(rejected := d.rejected + 1)
    case Staged => d.(guests := With(d.guests, name, At(d.guests, name) + [guest]))
  }

  function WorkOutcome(d: Desk, name: string, work: Conn): ParkOutcome {
    if d.closed then Rejected
    else if At(d.guests, name) != [] then Paired(Pairing(At(d.guests, name)[0], work))
    else Staged
  }

  function WorkParked(d: Desk, name: string, work: Conn): Desk {
    match WorkOutcome(d, name, work)
    case Paired(_) => d.(guests := With(d.guests, name, At(d.guests, name)[1..]))
    case Staged => d.(works := Pushed(d.works, name, work))
    case _ => d
  }

  function GuestsDropped(d: Desk, name: string): Desk {
    if At(d.guests, name) == [] then d else d.(guests := With(d.guests, name, []))
  }

  function AllClosed(d: Desk): Desk {
    if d.closed then d else d.(closed := true, guests := map[], works := Emptied(d.works))
  }

  /** The pool connections that storing one more pushes out. */
  function WorksClosed(d: Desk, name: string, work: Conn): seq<Conn> {
    if WorkOutcome(d, name, work) == Staged && !d.works.closed
    then Surplus(At(d.works.staged, name) + [work], d.works.limit) else []
  }

  // The objects.

  /** The connections of the process that have been closed. */
  class Network {
    var closed: set<Conn>

    constructor ()
      ensures closed == {}
    {
      closed := {};
    }

    method Close(c: Conn)
      modifies this
      ensures closed == old(closed) + {c}
    {
      closed := closed + {c};
    }
  }

  class StagedWorkConns {
    const limit: nat
    const net: Network
    var staged: map<string, seq<Conn>>
    var closed: bool

    ghost function Model(): Pool
      reads this
    {
      Pool(limit, staged, closed)
    }

    constructor (limit: nat, net: Network)
      ensures Model() == Pool(limit, map[], false) && this.net == net
    {
      this.limit, this.net, staged, closed := limit, net, map[], false;
    }

    /** Stores a connection, closing the oldest beyond the limit. A closed pool ignores it: the
        connection is neither stored nor closed. */
    method Push(name: string, work: Conn)
      modifies this, net
      ensures Model() == Pushed(old(Model()), name, work)
      ensures net.closed == old(net.closed) +
                            if old(closed) then {} else Members(Surplus(At(old(staged), name) + [work], limit))
    {
      if closed {
        return;
      }
      ghost var all := At(staged, name) + [work];
      var queue := (if name in staged then staged[name] else []) + [work];
      ghost var gone := 0;
      while |queue| > limit
        invariant 0 <= gone <= |all| && queue == all[gone..]
        invariant gone > 0 ==> |queue| >= limit
        invariant unchanged(this) && net.closed == old(net.closed) + Members(all[..gone])
        decreases |queue|
      {
        net.Close(queue[0]);
        assert all[..gone + 1] == all[..gone] + [queue[0]];
        queue := queue[1..];
        gone := gone + 1;
      }
      assert queue == Newest(all, limit) && all[..gone] == Surplus(all, limit);
      staged := With(staged, name, queue);
    }

    /** Hands out the oldest connection of a proxy. */
    method Take(name: string) returns (work: seq<Conn>)
      modifies this`staged
      ensures Model() == Popped(old(Model()), name)
      ensures work == if At(old(staged), name) == [] then [] else [At(old(staged), name)[0]]
    {
      var queue := At(staged, name);
      if queue == [] {
        return [];
      }
      staged := With(staged, name, queue[1..]);
      return [queue[0]];
    }

    /** Closes every stored connection; a second call does nothing. */
    method Close()
      modifies this, net
      ensures Model() == Emptied(old(Model()))
      ensures net.closed == old(net.closed) + if old(closed) then {} else Everyone(old(staged))
    {
      if closed {
        return;
      }
      closed := true;
      while staged != map[]
        invariant closed
        invariant staged.Keys <= old(staged).Keys && forall name :: name in staged ==> staged[name] == old(staged)[name]
        invariant net.closed + Everyone(staged) == old(net.closed) + Everyone(old(staged))
        decreases |staged.Keys|
      {
        var name := Pick(staged.Keys);
        CloseQueue(name);
        EveryoneBut(staged, name);
        staged := staged - {name};
      }
    }

    method CloseQueue(name: string)
      requires name in staged
      modifies net
      ensures net.closed == old(net.closed) + Members(staged[name])
    {
      var queue := staged[name];
      for i := 0 to |queue|
        invariant net.closed == old(net.closed) + Members(queue[..i])
      {
        assert queue[..i + 1] == queue[..i] + [queue[i]];
        net.Close(queue[i]);
      }
      assert queue[..|queue|] == queue;
    }
  }

  class WorkBroker {
    const net: Network
    const works: StagedWorkConns
    var guests: map<string, seq<Guest>>
    var closed: bool
    var rejectedGuests: nat

    ghost predicate Valid() { works.net == net }

    ghost function Model(): Desk
      reads this, works
    {
      Desk(guests, works.Model(), closed, rejectedGuests)
    }

    constructor (idleLimit: nat, net: Network)
      ensures Valid() && this.net == net && fresh(works)
      ensures Model() == Desk(map[], Pool(idleLimit, map[], false), false, 0)
    {
      this.net := net;
      works := new StagedWorkConns(idleLimit, net);
      guests, closed, rejectedGuests := map[], false, 0;
    }

    method ParkGuest(name: string, guest: Guest) returns (outcome: ParkOutcome)
      requires Valid()
      modifies this, works
      ensures Model() == GuestParked(old(Model()), name, guest)
      ensures outcome == GuestOutcome(old(Model()), name, guest)
    {
      if closed {
        return Rejected;
      }
      var work := works.Take(name);
      if work != [] {
        return Paired(Pairing(guest, work[0]));
      }
      if |At(guests, name)| >= MAX_PENDING_GUEST {
        rejectedGuests := rejectedGuests + 1;
        return CapacityFull;
      }
      guests := guests[name := At(guests, name) + [guest]];
      return Staged;
    }

    method Park(name: string, work: Conn) returns (outcome: ParkOutcome)
      requires Valid()
      modifies this, works, net
      ensures Model() == WorkParked(old(Model()), name, work)
      ensures outcome == WorkOutcome(old(Model()), name, work)
      ensures net.closed == old(net.closed) + Members(WorksClosed(old(Model()), name, work))
    {
      if closed {
        return Rejected;
      }
      var queue := At(guests, name);
      if |queue| > 0 {
        guests := if |queue| == 1 then guests - {name} else guests[name := queue[1..]];
        return Paired(Pairing(queue[0], work));
      }
      works.Push(name, work);
      return Staged;
    }

    method TakeStaged(name: string) returns (work: seq<Conn>)
      requires Valid()
      modifies works
      ensures Model() == old(Model()).(works := Popped(old(Model()).works, name))
      ensures work == if At(old(works.staged), name) == [] then [] else [At(old(works.staged), name)[0]]
    {
      work := works.Take(name);
    }

    /** Closes the waiting visitors of one proxy, whose work connection will never come. */
    method DropGuests(name: string) returns (dropped: seq<Conn>)
      requires Valid()
      modifies this`guests, net
      ensures Model() == GuestsDropped(old(Model()), name)
      ensures dropped == Conns(At(old(guests), name))
      ensures net.closed == old(net.closed) + Members(dropped)
    {
      var queue := At(guests, name);
      if |queue| == 0 {
        return [];
      }
      guests := guests - {name};
      dropped := CloseGuests(queue);
    }

    method CloseGuests(queue: seq<Guest>) returns (dropped: seq<Conn>)
      modifies net
      ensures dropped == Conns(queue)
      ensures net.closed == old(net.closed) + Members(dropped)
    {
      dropped := [];
      for i := 0 to |queue|
        invariant dropped == Conns(queue[..i])
        invariant net.closed == old(net.closed) + Members(dropped)
      {
        assert Conns(queue[..i + 1]) == dropped + [queue[i].conn];
        net.Close(queue[i].conn);
        dropped := dropped + [queue[i].conn];
      }
      assert queue[..|queue|] == queue;
    }

    /** Closes the idle work connections and keeps the waiting visitors. */
    method CloseStagedWorks()
      requires Valid()
      modifies works, net
      ensures Model() == old(Model()).(works := Emptied(old(Model()).works))
      ensures net.closed == old(net.closed) + if old(works.closed) then {} else Everyone(old(works.staged))
    {
      works.Close();
    }

    method CloseStaged()
      requires Valid()
      modifies this, works, net
      ensures Model() == AllClosed(old(Model()))
      ensures net.closed == old(net.closed) +
                            if old(closed) then {} else EveryGuest(old(guests)) +
                                                        if old(works.closed) then {} else Everyone(old(works.staged))
    {
      if closed {
        return;
      }
      closed := true;
      CloseEveryGuest();
      works.Close();
    }

    method CloseEveryGuest()
      modifies this`guests, net
      ensures guests == map[]
      ensures net.closed == old(net.closed) + EveryGuest(old(guests))
    {
      while guests != map[]
        invariant net.closed + EveryGuest(guests) == old(net.closed) + EveryGuest(old(guests))
        decreases |guests.Keys|
      {
        var name := Pick(guests.Keys);
        GuestsBut(guests, name);
        var _ := CloseGuests(guests[name]);
        guests := guests - {name};
      }
    }
  }

  // Pairing one visitor, skipping dead work connections.

  /** The oldest idle connection that still works, or the length if none does. */
  ghost function FirstLive(queue: seq<Conn>, alive: Conn -> bool): (n: nat)
    ensures n <= |queue| && forall k :: 0 <= k < n ==> !alive(queue[k])
    ensures n < |queue| ==> alive(queue[n])
  {
    if queue == [] || alive(queue[0]) then 0 else 1 + FirstLive(queue[1..], alive)
  }

  /** The desk without the first `n` idle connections of a proxy. */
  ghost function Skipped(d: Desk, name: string, n: nat): (r: Desk)
    requires n <= |At(d.works.staged, name)|
    ensures At(r.works.staged, name) == At(d.works.staged, name)[n..]
    ensures forall other :: other != name ==> At(r.works.staged, other) == At(d.works.staged, other)
    ensures r == d.(works := d.works.(staged := r.works.staged))
    decreases n
  {
    if n == 0 then d else Skipped(d.(works := Popped(d.works, name)), name, n - 1)
  }

  ghost function Tries(d: Desk, name: string, alive: Conn -> bool): (n: nat)
    ensures n <= MAX_PAIR_RETRIES && n <= |At(d.works.staged, name)|
  {
    var dead := if d.closed then 0 else FirstLive(At(d.works.staged, name), alive);
    if dead < MAX_PAIR_RETRIES then dead else MAX_PAIR_RETRIES
  }

  /** How pairing ends once the first `Tries` idle connections are gone. */
  ghost function PairOutcome(d: Desk, name: string, guest: Guest, alive: Conn -> bool): ParkOutcome {
    var n := Tries(d, name, alive);
    if n == MAX_PAIR_RETRIES then Rejected else GuestOutcome(Skipped(d, name, n), name, guest)
  }

  ghost function PairedDesk(d: Desk, name: string, guest: Guest, alive: Conn -> bool): Desk {
    var n := Tries(d, name, alive);
    if n == MAX_PAIR_RETRIES then Skipped(d, name, n) else GuestParked(Skipped(d, name, n), name, guest)
  }

  lemma SkipNone(d: Desk, name: string)
    ensures Skipped(d, name, 0) == d
  {}

  lemma {:induction false} SkipOneMore(d: Desk, name: string, n: nat)
    requires n <= |At(d.works.staged, name)|
    ensures n < |At(d.works.staged, name)| ==>
              Skipped(d, name, n + 1) == Skipped(d, name, n).(works := Popped(Skipped(d, name, n).works, name))
    decreases n
  {
    if 0 < n < |At(d.works.staged, name)| {
      SkipOneMore(d.(works := Popped(d.works, name)), name, n - 1);
    }
  }

  /** A round that does not settle the guest has met one more dead connection, the next in line. */
  lemma Round(d: Desk, name: string, guest: Guest, alive: Conn -> bool, n: nat)
    requires n < MAX_PAIR_RETRIES && n <= if d.closed then 0 else FirstLive(At(d.works.staged, name), alive)
    ensures var queue, here := At(d.works.staged, name), Skipped(d, name, n);
            var outcome := GuestOutcome(here, name, guest);
            if outcome.Paired? && !alive(outcome.pair.work)
            then !d.closed && n < FirstLive(queue, alive) && outcome.pair.work == queue[n]
                 && GuestParked(here, name, guest) == Skipped(d, name, n + 1)
            else Tries(d, name, alive) == n
  {
    SkipOneMore(d, name, n);
  }

  class Engine {
    const net: Network
    const broker: WorkBroker
    var tracked: set<Conn>

    constructor (idleLimit: nat)
      ensures broker.Valid() && broker.net == net && fresh(broker.works)
      ensures broker.Model() == Desk(map[], Pool(idleLimit, map[], false), false, 0)
      ensures tracked == {} && net.closed == {}
    {
      var n := new Network();
      net := n;
      broker := new WorkBroker(idleLimit, n);
      tracked := {};
    }

    /** `alive` tells which work connections answer the probe and take the pending bytes. Every
        dead connection met is closed; the guest stays tracked. */
    method PairGuest(name: string, guest: Guest, alive: Conn -> bool) returns (outcome: ParkOutcome)
      requires broker.Valid() && broker.net == net && guest.conn in tracked
      modifies this, broker, broker.works, net
      ensures outcome == PairOutcome(old(broker.Model()), name, guest, alive)
      ensures broker.Model() == PairedDesk(old(broker.Model()), name, guest, alive)
      ensures net.closed == old(net.closed) +
                            Members(At(old(broker.works.staged), name)[..Tries(old(broker.Model()), name, alive)])
      ensures tracked == old(tracked) + if outcome.Paired? then {outcome.pair.work} else {}
    {
      hide GuestOutcome, GuestParked, Skipped;
      ghost var d, queue := broker.Model(), At(broker.works.staged, name);
      ghost var n := if d.closed then 0 else FirstLive(queue, alive);
      SkipNone(d, name);
      var attempt := 0;
      while attempt < MAX_PAIR_RETRIES
        invariant attempt <= n && attempt <= MAX_PAIR_RETRIES && tracked == old(tracked)
        invariant broker.Model() == Skipped(d, name, attempt)
        invariant net.closed == old(net.closed) + Members(queue[..attempt])
      {
        Round(d, name, guest, alive, attempt);
        var served;
        outcome, served := TryOnce(name, guest, alive);
        if served || !outcome.Paired? {
          return;
        }
        assert queue[..attempt + 1] == queue[..attempt] + [queue[attempt]];
        attempt := attempt + 1;
      }
      outcome := Rejected;
    }

    /** One round: a guest paired with a dead connection has not been served. */
    method TryOnce(name: string, guest: Guest, alive: Conn -> bool) returns (outcome: ParkOutcome, served: bool)
      requires broker.Valid() && broker.net == net && guest.conn in tracked
      modifies this, broker, broker.works, net
      ensures outcome == GuestOutcome(old(broker.Model()), name, guest)
      ensures broker.Model() == GuestParked(old(broker.Model()), name, guest)
      ensures served <==> outcome.Paired? && alive(outcome.pair.work)
      ensures net.closed == old(net.closed) + if outcome.Paired? && !served then {outcome.pair.work} else {}
      ensures tracked == old(tracked) + if served then {outcome.pair.work} else {}
    {
      outcome := broker.ParkGuest(name, guest);
      if !outcome.Paired? {
        return outcome, false;
      }
      tracked := tracked - {guest.conn};
      served := Start(outcome.pair, alive);
      if !served {
        tracked := tracked + {guest.conn};
      }
    }

    /** A work connection arrives for a proxy. If a visitor waits, the two are paired, and nobody looks
        whether that worked: when the connection is dead the visitor is out of its queue, neither
        bridged nor closed. */
    method ServeWork(name: string, work: Conn, alive: Conn -> bool) returns (outcome: ParkOutcome)
      requires broker.Valid() && broker.net == net
      modifies this, broker, broker.works, net
      ensures outcome == WorkOutcome(old(broker.Model()), name, work)
      ensures broker.Model() == WorkParked(old(broker.Model()), name, work)
      ensures tracked == old(tracked) + if outcome.Paired? && alive(work) then {outcome.pair.guest.conn, work} else {}
      ensures net.closed == old(net.closed) + Members(WorksClosed(old(broker.Model()), name, work)) +
                            if outcome.Rejected? || (outcome.Paired? && !alive(work)) then {work} else {}
    {
      outcome := broker.Park(name, work);
      if outcome.Rejected? {
        net.Close(work);
      } else if outcome.Paired? {
        var _ := Start(outcome.pair, alive);
      }
    }

    method Start(pair: Pairing, alive: Conn -> bool) returns (started: bool)
      modifies this`tracked, net
      ensures started == alive(pair.work)
      ensures tracked == old(tracked) + if started then {pair.guest.conn, pair.work} else {}
      ensures net.closed == old(net.closed) + if started then {} else {pair.work}
    {
      if !alive(pair.work) {
        net.Close(pair.work);
        return false;
      }
      tracked := tracked + {pair.guest.conn} + {pair.work};
      return true;
    }
  }

  /** With the limits the configuration allows, pairing never runs out of attempts: it serves the
      guest on the oldest live connection, or, all being dead, queues it. */
  lemma PairingSettles(d: Desk, name: string, guest: Guest, alive: Conn -> bool)
    requires !d.closed && d.works.limit <= MAX_IDLE_WORK_CONN_LIMIT
    requires |At(d.works.staged, name)| <= d.works.limit
    requires At(d.guests, name) == [] || At(d.works.staged, name) == []
    ensures var queue := At(d.works.staged, name);
            var n := FirstLive(queue, alive);
            var after := PairedDesk(d, name, guest, alive);
            Tries(d, name, alive) == n &&
            At(after.works.staged, name) == (if n < |queue| then queue[n + 1..] else []) &&
            PairOutcome(d, name, guest, alive) == (if n < |queue| then Paired(Pairing(guest, queue[n]))
                                                   else if |At(d.guests, name)| < MAX_PENDING_GUEST then Staged
                                                   else CapacityFull)
    ensures At(d.works.staged, name) != [] && PairOutcome(d, name, guest, alive) == Staged ==>
              At(PairedDesk(d, name, guest, alive).guests, name) == [guest]
    ensures At(d.works.staged, name) != [] ==> PairOutcome(d, name, guest, alive) != CapacityFull
  {
    var queue := At(d.works.staged, name);
    var n := FirstLive(queue, alive);
    var left := Skipped(d, name, n);
    assert At(left.works.staged, name) == queue[n..];
    if n < |queue| {
      assert queue[n..][1..] == queue[n + 1..];
    }
  }
}
