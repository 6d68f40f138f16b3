/** What every run of the pairing broker keeps, told for one proxy at a time. */
module BrokerRuns {
  import opened Wrappers
  import opened Broker
  import opened Subsequences

  /** `live` tells whether the connection an arrival is paired with, if any, still works. */
  datatype Op =
    | ArriveGuest(name: string, guest: Guest, live: bool)
    | RetryGuest(k: nat, live: bool)
    | ArriveWork(name: string, work: Conn, live: bool)
    | TakeWork(name: string)
    | DropGuests(name: string)
    | RetireWorks
    | CloseAll

  /** One attempt to pair a visitor, the first or a later one. */
  datatype Attempt = Attempt(name: string, guest: Guest, tries: nat)

  /** The desk, and the visitors that were paired with a dead connection and try again. */
  datatype System = System(desk: Desk, retrying: seq<Attempt>)

  function Asked(s: System, op: Op): Option<Attempt> {
    match op
    case ArriveGuest(name, guest, _) => Some(Attempt(name, guest, 1))
    case RetryGuest(k, _) =>
      if k < |s.retrying| then Some(s.retrying[k].(tries := s.retrying[k].tries + 1)) else None
    case _ => None
  }

  function Without<T>(all: seq<T>, k: nat): seq<T>
    requires k < |all|
  {
    all[..k] + all[k + 1..]
  }

  /** A visitor paired with a dead connection tries again, up to the limit. */
  predicate Again(d: Desk, a: Attempt, live: bool) {
    GuestOutcome(d, a.name, a.guest).Paired? && !live && a.tries < MAX_PAIR_RETRIES
  }

  /** What an operation other than pairing a visitor does to the desk. */
  function DeskAfter(d: Desk, op: Op): Desk {
    match op
    case ArriveWork(name, work, _) => WorkParked(d, name, work)
    case TakeWork(name) => d.(works := Popped(d.works, name))
    case DropGuests(name) => GuestsDropped(d, name)
    case RetireWorks => d.(works := Emptied(d.works))
    case CloseAll => AllClosed(d)
    case _ => d
  }

  /** Each operation runs under the broker's lock, so a run is any list of them; between two attempts
      of a visitor anything may happen. */
  function Next(s: System, op: Op): System {
    var d, asked := s.desk, Asked(s, op);
    if asked.None? then System(DeskAfter(d, op), s.retrying)
    else
      var a := asked.value;
      var others := if op.RetryGuest? then Without(s.retrying, op.k) else s.retrying;
      System(GuestParked(d, a.name, a.guest),
             others + if (op.ArriveGuest? || op.RetryGuest?) && Again(d, a, op.live) then [a] else [])
  }

  function Fresh(limit: nat): System { System(Desk(map[], Pool(limit, map[], false), false, 0), []) }

  function After(limit: nat, ops: seq<Op>): System
    decreases |ops|
  {
    if ops == [] then Fresh(limit) else Next(After(limit, Init(ops)), Last(ops))
  }

  /** How a visitor left the queue: bridged, closed, or handed to a dead connection and forgotten. */
  datatype GuestEnd = Served(pair: Pairing) | Dropped(guest: Guest) | Lost(guest: Guest)

  /** How a work connection left the pool: bridged, lent to a UDP session, or closed. */
  datatype WorkEnd = Bridged(pair: Pairing) | Lent(work: Conn) | Closed(work: Conn)

  /** What became of everything that arrived for one proxy, in order. */
  datatype Ledger = Ledger(
    admitted: seq<Guest>, settled: seq<GuestEnd>, turnedAway: seq<Guest>,
    stocked: seq<Conn>, spent: seq<WorkEnd>, refused: seq<Conn>, stranded: seq<Conn>)

  function Guests(ends: seq<GuestEnd>): seq<Guest> {
    seq(|ends|, i requires 0 <= i < |ends| => if ends[i].Served? then ends[i].pair.guest else ends[i].guest)
  }

  function Works(ends: seq<WorkEnd>): seq<Conn> {
    seq(|ends|, i requires 0 <= i < |ends| => if ends[i].Bridged? then ends[i].pair.work else ends[i].work)
  }

  function GuestPairs(ends: seq<GuestEnd>): seq<Pairing> {
    if ends == [] then []
    else GuestPairs(Init(ends)) + if Last(ends).Served? then [Last(ends).pair] else []
  }

  function WorkPairs(ends: seq<WorkEnd>): seq<Pairing> {
    if ends == [] then []
    else WorkPairs(Init(ends)) + if Last(ends).Bridged? then [Last(ends).pair] else []
  }

  function DroppedAll(queue: seq<Guest>): seq<GuestEnd> {
    seq(|queue|, i requires 0 <= i < |queue| => Dropped(queue[i]))
  }

  function ClosedAll(queue: seq<Conn>): seq<WorkEnd> { seq(|queue|, i requires 0 <= i < |queue| => Closed(queue[i])) }

  /** The entry for an attempt to pair a visitor of this proxy. */
  function AttemptEntry(l: Ledger, d: Desk, a: Attempt, live: bool): Ledger {
    match GuestOutcome(d, a.name, a.guest)
    case Paired(pair) =>
      if live then
        l.(admitted := l.admitted + [a.guest], settled := l.settled + [Served(pair)],
           spent := l.spent + [Bridged(pair)])
      else
        l.(spent := l.spent + [Closed(pair.work)],
           turnedAway := if Again(d, a, live) then l.turnedAway else l.turnedAway + [a.guest])
    case Staged => l.(admitted := l.admitted + [a.guest])
    case _ => l.(turnedAway := l.turnedAway + [a.guest])
  }

  /** The entry for a work connection of this proxy. Nobody looks whether its pairing was started. */
  function WorkEntered(l: Ledger, d: Desk, p: string, work: Conn, live: bool): Ledger {
    match WorkOutcome(d, p, work)
    case Paired(pair) =>
      if live then
        l.(settled := l.settled + [Served(pair)], stocked := l.stocked + [work], spent := l.spent + [Bridged(pair)])
      else
        l.(settled := l.settled + [Lost(pair.guest)], stocked := l.stocked + [work], spent := l.spent + [Closed(work)])
    case Staged =>
      if d.works.closed then l.(stranded := l.stranded + [work])
      else l.(stocked := l.stocked + [work], spent := l.spent + ClosedAll(WorksClosed(d, p, work)))
    case _ => l.(refused := l.refused + [work])
  }

  function Entry(l: Ledger, s: System, p: string, op: Op): Ledger {
    var d := s.desk;
    var waiting, idle := At(d.guests, p), At(d.works.staged, p);
    match op
    case ArriveGuest(_, _, live) =>
      var a := Asked(s, op).value;
      if a.name == p then AttemptEntry(l, d, a, live) else l
    case RetryGuest(_, live) =>
      var asked := Asked(s, op);
      if asked.Some? && asked.value.name == p then AttemptEntry(l, d, asked.value, live) else l
    case ArriveWork(name, work, live) => if name == p then WorkEntered(l, d, p, work, live) else l
    case TakeWork(name) =>
      if name != p || idle == [] then l else l.(spent := l.spent + [Lent(idle[0])])
    case DropGuests(name) =>
      if name != p then l else l.(settled := l.settled + DroppedAll(waiting))
    case RetireWorks => l.(spent := l.spent + ClosedAll(idle))
    case CloseAll =>
      l.(settled := l.settled + DroppedAll(waiting), spent := l.spent + ClosedAll(idle))
  }

  function Book(limit: nat, p: string, ops: seq<Op>): Ledger
    decreases |ops|
  {
    if ops == [] then Ledger([], [], [], [], [], [], [])
    else Entry(Book(limit, p, Init(ops)), After(limit, Init(ops)), p, Last(ops))
  }

  function GuestArrivals(p: string, ops: seq<Op>): multiset<Guest> {
    if ops == [] then multiset{}
    else GuestArrivals(p, Init(ops)) +
         if Last(ops).ArriveGuest? && Last(ops).name == p then multiset{Last(ops).guest} else multiset{}
  }

  /** The visitors of a proxy that are between two attempts. */
  function Retrying(attempts: seq<Attempt>, p: string): multiset<Guest> {
    if attempts == [] then multiset{}
    else Retrying(Init(attempts), p) + if Last(attempts).name == p then multiset{Last(attempts).guest} else multiset{}
  }

  function WorkArrivals(p: string, ops: seq<Op>): multiset<Conn> {
    if ops == [] then multiset{}
    else WorkArrivals(p, Init(ops)) +
         if Last(ops).ArriveWork? && Last(ops).name == p then multiset{Last(ops).work} else multiset{}
  }

  /** Never both a waiting visitor and an idle connection; both queues bounded; nothing left
      behind by closing; no empty queue stored. */
  ghost predicate Exclusive(d: Desk, p: string) {
    && (At(d.guests, p) == [] || At(d.works.staged, p) == [])
    && |At(d.guests, p)| <= MAX_PENDING_GUEST && |At(d.works.staged, p)| <= d.works.limit
    && (d.works.closed ==> At(d.works.staged, p) == [])
    && (d.closed ==> At(d.guests, p) == [] && d.works.closed)
    && (p in d.guests ==> d.guests[p] != [])
    && (p in d.works.staged ==> d.works.staged[p] != [])
  }

  lemma NextExclusive(s: System, p: string, op: Op)
    requires Exclusive(s.desk, p)
    ensures Exclusive(Next(s, op).desk, p) && Next(s, op).desk.works.limit == s.desk.works.limit
  {}

  lemma {:induction false} RunExclusive(limit: nat, p: string, ops: seq<Op>)
    ensures Exclusive(After(limit, ops).desk, p) && After(limit, ops).desk.works.limit == limit
    decreases |ops|
  {
    if ops != [] {
      RunExclusive(limit, p, Init(ops));
      NextExclusive(After(limit, Init(ops)), p, Last(ops));
    }
  }

  /** Visitors leave in the order they were admitted, each with its own pending bytes, and so do
      work connections; both sides tell of the same pairings in the same order. */
  ghost predicate InOrder(l: Ledger, d: Desk, p: string) {
    && l.admitted == Guests(l.settled) + At(d.guests, p)
    && l.stocked == Works(l.spent) + At(d.works.staged, p)
    && GuestPairs(l.settled) == WorkPairs(l.spent)
  }

  lemma MoveOn<T>(all: seq<T>, done: seq<T>, moved: seq<T>, left: seq<T>)
    requires all == done + (moved + left)
    ensures all == done + moved + left
  {}

  lemma AddLast<T>(all: seq<T>, done: seq<T>, queue: seq<T>, e: T)
    requires all == done + queue
    ensures all + [e] == done + (queue + [e])
  {}

  lemma HeadAndTail<T>(queue: seq<T>)
    requires queue != []
    ensures queue == [queue[0]] + queue[1..]
  {}

  lemma GuestsConcat(a: seq<GuestEnd>, b: seq<GuestEnd>)
    ensures Guests(a + b) == Guests(a) + Guests(b)
  {}

  lemma WorksConcat(a: seq<WorkEnd>, b: seq<WorkEnd>)
    ensures Works(a + b) == Works(a) + Works(b)
  {}

  lemma SoleEnds(pair: Pairing, work: Conn)
    ensures Guests([Served(pair)]) == [pair.guest]
    ensures Works([Bridged(pair)]) == [pair.work] && Works([Closed(work)]) == [work]
  {}

  lemma SoleLoss(guest: Guest)
    ensures Guests([Lost(guest)]) == [guest]
  {}

  lemma GuestsOfDropped(queue: seq<Guest>)
    ensures Guests(DroppedAll(queue)) == queue
  {}

  lemma WorksOfClosed(queue: seq<Conn>)
    ensures Works(ClosedAll(queue)) == queue
  {}

  lemma DroppedLast(queue: seq<Guest>)
    requires queue != []
    ensures DroppedAll(queue) == DroppedAll(Init(queue)) + [Dropped(Last(queue))]
  {}

  lemma ClosedLast(queue: seq<Conn>)
    requires queue != []
    ensures ClosedAll(queue) == ClosedAll(Init(queue)) + [Closed(Last(queue))]
  {}

  lemma GuestPairsAdd(a: seq<GuestEnd>, e: GuestEnd)
    ensures GuestPairs(a + [e]) == GuestPairs(a) + if e.Served? then [e.pair] else []
  {
    Snoc(a, e);
  }

  lemma WorkPairsAdd(a: seq<WorkEnd>, e: WorkEnd)
    ensures WorkPairs(a + [e]) == WorkPairs(a) + if e.Bridged? then [e.pair] else []
  {
    Snoc(a, e);
  }

  lemma {:induction false} NoPairsDropped(a: seq<GuestEnd>, queue: seq<Guest>)
    ensures GuestPairs(a + DroppedAll(queue)) == GuestPairs(a)
    decreases |queue|
  {
    if queue == [] {
      assert a + DroppedAll(queue) == a;
    } else {
      var before := DroppedAll(Init(queue));
      NoPairsDropped(a, Init(queue));
      GuestPairsAdd(a + before, Dropped(Last(queue)));
      DroppedLast(queue);
      assert a + before + [Dropped(Last(queue))] == a + (before + [Dropped(Last(queue))]);
    }
  }

  lemma {:induction false} NoPairsClosed(a: seq<WorkEnd>, queue: seq<Conn>)
    ensures WorkPairs(a + ClosedAll(queue)) == WorkPairs(a)
    decreases |queue|
  {
    if queue == [] {
      assert a + ClosedAll(queue) == a;
    } else {
      var before := ClosedAll(Init(queue));
      NoPairsClosed(a, Init(queue));
      WorkPairsAdd(a + before, Closed(Last(queue)));
      ClosedLast(queue);
      assert a + before + [Closed(Last(queue))] == a + (before + [Closed(Last(queue))]);
    }
  }

  /** The front idle connection leaves the pool, bridged or closed. */
  lemma FrontLeaves(l: Ledger, d: Desk, p: string, workEnd: WorkEnd)
    requires InOrder(l, d, p) && At(d.works.staged, p) != [] && Works([workEnd]) == [At(d.works.staged, p)[0]]
    ensures l.stocked == Works(l.spent + [workEnd]) + At(Popped(d.works, p).staged, p)
    ensures WorkPairs(l.spent + [workEnd]) == WorkPairs(l.spent) + if workEnd.Bridged? then [workEnd.pair] else []
  {
    var idle := At(d.works.staged, p);
    HeadAndTail(idle);
    MoveOn(l.stocked, Works(l.spent), [idle[0]], idle[1..]);
    WorksConcat(l.spent, [workEnd]);
    WorkPairsAdd(l.spent, workEnd);
  }

  lemma GuestServed(l: Ledger, d: Desk, a: Attempt)
    requires Exclusive(d, a.name) && InOrder(l, d, a.name) && GuestOutcome(d, a.name, a.guest).Paired?
    ensures InOrder(AttemptEntry(l, d, a, true), GuestParked(d, a.name, a.guest), a.name)
  {
    hide Guests, Works, GuestPairs, WorkPairs;
    var pair := GuestOutcome(d, a.name, a.guest).pair;
    SoleEnds(pair, pair.work);
    FrontLeaves(l, d, a.name, Bridged(pair));
    GuestsConcat(l.settled, [Served(pair)]);
    GuestPairsAdd(l.settled, Served(pair));
    assert At(d.guests, a.name) == [] && Guests(l.settled) + [] == Guests(l.settled);
  }

  lemma GuestFailed(l: Ledger, d: Desk, a: Attempt)
    requires Exclusive(d, a.name) && InOrder(l, d, a.name) && GuestOutcome(d, a.name, a.guest).Paired?
    ensures InOrder(AttemptEntry(l, d, a, false), GuestParked(d, a.name, a.guest), a.name)
  {
    hide Guests, Works, GuestPairs, WorkPairs;
    var pair := GuestOutcome(d, a.name, a.guest).pair;
    SoleEnds(pair, pair.work);
    FrontLeaves(l, d, a.name, Closed(pair.work));
  }

  lemma GuestAttempt(l: Ledger, d: Desk, a: Attempt, live: bool)
    requires Exclusive(d, a.name) && InOrder(l, d, a.name)
    ensures InOrder(AttemptEntry(l, d, a, live), GuestParked(d, a.name, a.guest), a.name)
  {
    if GuestOutcome(d, a.name, a.guest).Paired? {
      hide InOrder, AttemptEntry, GuestParked;
      if live { GuestServed(l, d, a); } else { GuestFailed(l, d, a); }
    } else {
      AddLast(l.admitted, Guests(l.settled), At(d.guests, a.name), a.guest);
    }
  }

  lemma WorkArrives(l: Ledger, d: Desk, p: string, work: Conn, live: bool)
    requires Exclusive(d, p) && InOrder(l, d, p)
    ensures InOrder(WorkEntered(l, d, p, work, live), WorkParked(d, p, work), p)
  {
    var outcome, waiting, idle := WorkOutcome(d, p, work), At(d.guests, p), At(d.works.staged, p);
    if outcome.Paired? {
      var guestEnd := if live then Served(outcome.pair) else Lost(waiting[0]);
      var workEnd := if live then Bridged(outcome.pair) else Closed(work);
      hide Guests, Works, GuestPairs, WorkPairs;
      SoleEnds(outcome.pair, work);
      SoleLoss(waiting[0]);
      HeadAndTail(waiting);
      MoveOn(l.admitted, Guests(l.settled), [waiting[0]], waiting[1..]);
      GuestsConcat(l.settled, [guestEnd]);
      GuestPairsAdd(l.settled, guestEnd);
      AddLast(l.stocked, Works(l.spent), idle, work);
      WorksConcat(l.spent, [workEnd]);
      WorkPairsAdd(l.spent, workEnd);
    } else if outcome == Staged && !d.works.closed {
      StockedWork(l, d, p, work);
      NoPairsClosed(l.spent, WorksClosed(d, p, work));
    }
  }

  lemma StockedWork(l: Ledger, d: Desk, p: string, work: Conn)
    requires InOrder(l, d, p) && WorkOutcome(d, p, work) == Staged && !d.works.closed
    ensures l.stocked + [work] ==
            Works(l.spent + ClosedAll(WorksClosed(d, p, work))) + At(WorkParked(d, p, work).works.staged, p)
  {
    var all := At(d.works.staged, p) + [work];
    AddLast(l.stocked, Works(l.spent), At(d.works.staged, p), work);
    var out, kept := Surplus(all, d.works.limit), Newest(all, d.works.limit);
    assert all == out + kept;
    MoveOn(l.stocked + [work], Works(l.spent), out, kept);
    WorksConcat(l.spent, ClosedAll(out));
    WorksOfClosed(out);
  }

  lemma WorkLent(l: Ledger, d: Desk, p: string)
    requires InOrder(l, d, p) && At(d.works.staged, p) != []
    ensures InOrder(l.(spent := l.spent + [Lent(At(d.works.staged, p)[0])]), d.(works := Popped(d.works, p)), p)
  {
    var idle := At(d.works.staged, p);
    HeadAndTail(idle);
    MoveOn(l.stocked, Works(l.spent), [idle[0]], idle[1..]);
    WorksConcat(l.spent, [Lent(idle[0])]);
    WorkPairsAdd(l.spent, Lent(idle[0]));
  }

  lemma GuestsLeave(l: Ledger, d: Desk, u: Desk, p: string)
    requires InOrder(l, d, p) && At(u.guests, p) == [] && At(u.works.staged, p) == At(d.works.staged, p)
    ensures InOrder(l.(settled := l.settled + DroppedAll(At(d.guests, p))), u, p)
  {
    var waiting := At(d.guests, p);
    GuestsConcat(l.settled, DroppedAll(waiting));
    GuestsOfDropped(waiting);
    NoPairsDropped(l.settled, waiting);
    assert Guests(l.settled) + waiting + [] == Guests(l.settled) + waiting;
  }

  lemma WorksLeave(l: Ledger, d: Desk, u: Desk, p: string)
    requires InOrder(l, d, p) && At(u.works.staged, p) == [] && At(u.guests, p) == At(d.guests, p)
    ensures InOrder(l.(spent := l.spent + ClosedAll(At(d.works.staged, p))), u, p)
  {
    var idle := At(d.works.staged, p);
    WorksConcat(l.spent, ClosedAll(idle));
    WorksOfClosed(idle);
    NoPairsClosed(l.spent, idle);
    assert Works(l.spent) + idle + [] == Works(l.spent) + idle;
  }

  lemma EntryInOrder(l: Ledger, s: System, p: string, op: Op)
    requires Exclusive(s.desk, p) && InOrder(l, s.desk, p)
    ensures InOrder(Entry(l, s, p, op), Next(s, op).desk, p)
  {
    hide InOrder, GuestParked, WorkParked, AttemptEntry, WorkEntered;
    var d := s.desk;
    match op
    case ArriveGuest(_, _, live) => AttemptInOrder(l, d, p, Asked(s, op).value, live);
    case RetryGuest(_, live) =>
      if Asked(s, op).Some? { AttemptInOrder(l, d, p, Asked(s, op).value, live); }
    case ArriveWork(name, work, live) => WorkInOrder(l, d, p, name, work, live);
    case _ => OtherInOrder(l, s, p, op);
  }

  lemma AttemptInOrder(l: Ledger, d: Desk, p: string, a: Attempt, live: bool)
    requires Exclusive(d, p) && InOrder(l, d, p)
    ensures InOrder(if a.name == p then AttemptEntry(l, d, a, live) else l, GuestParked(d, a.name, a.guest), p)
  {
    if a.name == p { GuestAttempt(l, d, a, live); }
  }

  lemma WorkInOrder(l: Ledger, d: Desk, p: string, name: string, work: Conn, live: bool)
    requires Exclusive(d, p) && InOrder(l, d, p)
    ensures InOrder(if name == p then WorkEntered(l, d, p, work, live) else l, WorkParked(d, name, work), p)
  {
    if name == p { WorkArrives(l, d, p, work, live); }
  }

  lemma OtherInOrder(l: Ledger, s: System, p: string, op: Op)
    requires Exclusive(s.desk, p) && InOrder(l, s.desk, p)
    requires !op.ArriveGuest? && !op.RetryGuest? && !op.ArriveWork?
    ensures InOrder(Entry(l, s, p, op), Next(s, op).desk, p)
  {
    var d, u := s.desk, Next(s, op).desk;
    match op
    case TakeWork(name) =>
      if name == p && At(d.works.staged, p) != [] { WorkLent(l, d, p); }
    case DropGuests(name) =>
      if name == p { GuestsLeave(l, d, u, p); }
    case RetireWorks => WorksLeave(l, d, u, p);
    case CloseAll =>
      GuestsLeave(l, d, d.(guests := map[]), p);
      WorksLeave(l.(settled := l.settled + DroppedAll(At(d.guests, p))), d.(guests := map[]), u, p);
  }

  /** First come, first served, for visitors and for work connections, in every run. */
  lemma {:induction false} RunInOrder(limit: nat, p: string, ops: seq<Op>)
    ensures InOrder(Book(limit, p, ops), After(limit, ops).desk, p)
    decreases |ops|
  {
    if ops != [] {
      RunInOrder(limit, p, Init(ops));
      RunExclusive(limit, p, Init(ops));
      EntryInOrder(Book(limit, p, Init(ops)), After(limit, Init(ops)), p, Last(ops));
    }
  }

  /** Nothing appears from nowhere or vanishes: whatever arrived for a proxy is waiting, has left
      its queue, was turned away, or, for visitors, tries again and, for work connections, was lost in a
      closed pool. A visitor is counted once, however often it tries. */
  lemma {:induction false} RunConserves(limit: nat, p: string, ops: seq<Op>)
    ensures var l, s := Book(limit, p, ops), After(limit, ops);
            && GuestArrivals(p, ops) == multiset(Guests(l.settled)) + multiset(At(s.desk.guests, p)) +
                                        multiset(l.turnedAway) + Retrying(s.retrying, p)
            && WorkArrivals(p, ops) == multiset(Works(l.spent)) + multiset(At(s.desk.works.staged, p)) +
                                       multiset(l.refused) + multiset(l.stranded)
  {
    RunInOrder(limit, p, ops);
    RunArrivals(limit, p, ops);
  }

  lemma {:induction false} RunArrivals(limit: nat, p: string, ops: seq<Op>)
    ensures var l := Book(limit, p, ops);
            && GuestArrivals(p, ops) == Visitors(l, After(limit, ops), p)
            && WorkArrivals(p, ops) == Received(l)
    decreases |ops|
  {
    if ops != [] {
      RunArrivals(limit, p, Init(ops));
      GuestEntry(Book(limit, p, Init(ops)), After(limit, Init(ops)), p, Last(ops));
      WorkEntry(Book(limit, p, Init(ops)), After(limit, Init(ops)), p, Last(ops));
    }
  }

  function Settled(l: Ledger): multiset<Guest> { multiset(l.admitted) + multiset(l.turnedAway) }

  function Visitors(l: Ledger, s: System, p: string): multiset<Guest> { Settled(l) + Retrying(s.retrying, p) }

  lemma {:induction false} RetryingConcat(a: seq<Attempt>, b: seq<Attempt>, p: string)
    ensures Retrying(a + b, p) == Retrying(a, p) + Retrying(b, p)
    decreases |b|
  {
    if b == [] {
      assert a + b == a;
    } else {
      RetryingConcat(a, Init(b), p);
      assert Init(a + b) == a + Init(b);
    }
  }

  lemma RetryingOne(a: Attempt, p: string)
    ensures Retrying([a], p) == if a.name == p then multiset{a.guest} else multiset{}
  {
    assert Init([a]) == [];
  }

  lemma RetryingWithout(all: seq<Attempt>, k: nat, p: string)
    requires k < |all|
    ensures Retrying(all, p) == Retrying(Without(all, k), p) + Retrying([all[k]], p)
  {
    assert all == all[..k] + ([all[k]] + all[k + 1..]);
    RetryingConcat(all[..k], [all[k]] + all[k + 1..], p);
    RetryingConcat([all[k]], all[k + 1..], p);
    RetryingConcat(all[..k], all[k + 1..], p);
  }

  lemma AttemptCounts(l: Ledger, d: Desk, a: Attempt, live: bool)
    ensures Settled(AttemptEntry(l, d, a, live)) + (if Again(d, a, live) then multiset{a.guest} else multiset{})
         == Settled(l) + multiset{a.guest}
  {}

  /** A visitor put among the settled or among those that try again is counted once. */
  lemma CountedOnce(after: multiset<Guest>, before: multiset<Guest>, later: multiset<Guest>, others: multiset<Guest>,
                    one: multiset<Guest>, again: bool)
    requires after + (if again then one else multiset{}) == before + one
    requires later == others + if again then one else multiset{}
    ensures after + later == before + (others + one) == before + others + one
  {
    forall g ensures (after + later)[g] == before[g] + others[g] + one[g] {
      assert (after + (if again then one else multiset{}))[g] == (before + one)[g];
    }
  }

  lemma ArrivalEntry(l: Ledger, s: System, p: string, op: Op)
    requires op.ArriveGuest?
    ensures Visitors(Entry(l, s, p, op), Next(s, op), p)
         == Visitors(l, s, p) + if op.name == p then multiset{op.guest} else multiset{}
  {
    hide AttemptEntry, GuestParked, Settled;
    var a := Asked(s, op).value;
    AttemptCounts(l, s.desk, a, op.live);
    RetryingOne(a, p);
    RetryingConcat(s.retrying, [a], p);
    assert s.retrying + [] == s.retrying;
    var own := if a.name == p then multiset{a.guest} else multiset{};
    assert Retrying(Next(s, op).retrying, p)
        == Retrying(s.retrying, p) + if Again(s.desk, a, op.live) then own else multiset{};
    if a.name == p {
      CountedOnce(Settled(AttemptEntry(l, s.desk, a, op.live)), Settled(l), Retrying(Next(s, op).retrying, p),
                  Retrying(s.retrying, p), own, Again(s.desk, a, op.live));
    }
  }

  lemma RetryEntry(l: Ledger, s: System, p: string, op: Op)
    requires op.RetryGuest? && op.k < |s.retrying|
    ensures Visitors(Entry(l, s, p, op), Next(s, op), p) == Visitors(l, s, p)
  {
    hide AttemptEntry, GuestParked, Settled, Retrying;
    var a, others := Asked(s, op).value, Without(s.retrying, op.k);
    AttemptCounts(l, s.desk, a, op.live);
    RetryingOne(a, p);
    RetryingWithout(s.retrying, op.k, p);
    RetryingOne(s.retrying[op.k], p);
    RetryingConcat(others, [a], p);
    assert others + [] == others;
    var own := if a.name == p then multiset{a.guest} else multiset{};
    assert Retrying(s.retrying, p) == Retrying(others, p) + own;
    assert Retrying(Next(s, op).retrying, p)
        == Retrying(others, p) + if Again(s.desk, a, op.live) then own else multiset{};
    if a.name == p {
      CountedOnce(Settled(AttemptEntry(l, s.desk, a, op.live)), Settled(l), Retrying(Next(s, op).retrying, p),
                  Retrying(others, p), own, Again(s.desk, a, op.live));
    }
  }

  lemma GuestEntry(l: Ledger, s: System, p: string, op: Op)
    ensures Visitors(Entry(l, s, p, op), Next(s, op), p)
         == Visitors(l, s, p) + if op.ArriveGuest? && op.name == p then multiset{op.guest} else multiset{}
  {
    if op.ArriveGuest? {
      ArrivalEntry(l, s, p, op);
    } else if op.RetryGuest? && op.k < |s.retrying| {
      RetryEntry(l, s, p, op);
    }
  }

  function Received(l: Ledger): multiset<Conn> { multiset(l.stocked) + multiset(l.refused) + multiset(l.stranded) }

  lemma WorkCounts(l: Ledger, d: Desk, p: string, work: Conn, live: bool)
    ensures Received(WorkEntered(l, d, p, work, live)) == Received(l) + multiset{work}
  {}

  lemma WorkEntry(l: Ledger, s: System, p: string, op: Op)
    ensures Received(Entry(l, s, p, op))
         == Received(l) + if op.ArriveWork? && op.name == p then multiset{op.work} else multiset{}
  {
    if op.ArriveWork? && op.name == p {
      hide WorkEntered, Received;
      WorkCounts(l, s.desk, p, op.work, op.live);
    }
  }

  /** A visitor waits, and the connection that arrives for it is dead. */
  predicate HandsDead(s: System, p: string, op: Op) {
    op.ArriveWork? && op.name == p && !op.live && !s.desk.closed && At(s.desk.guests, p) != []
  }

  predicate EverHandsDead(limit: nat, p: string, ops: seq<Op>)
    decreases |ops|
  {
    ops != [] && (EverHandsDead(limit, p, Init(ops)) || HandsDead(After(limit, Init(ops)), p, Last(ops)))
  }

  predicate AnyLost(ends: seq<GuestEnd>) { exists k :: 0 <= k < |ends| && ends[k].Lost? }

  /** The visitors that were bridged or closed, and those that were neither. */
  function Seen(ends: seq<GuestEnd>): multiset<Guest> {
    if ends == [] then multiset{}
    else Seen(Init(ends)) + match Last(ends)
                            case Served(pair) => multiset{pair.guest}
                            case Dropped(guest) => multiset{guest}
                            case Lost(_) => multiset{}
  }

  function Missing(ends: seq<GuestEnd>): multiset<Guest> {
    if ends == [] then multiset{}
    else Missing(Init(ends)) + if Last(ends).Lost? then multiset{Last(ends).guest} else multiset{}
  }

  lemma {:induction false} SeenOrMissing(ends: seq<GuestEnd>)
    ensures multiset(Guests(ends)) == Seen(ends) + Missing(ends)
    decreases |ends|
  {
    if ends != [] {
      hide Guests;
      var e := Last(ends);
      SeenOrMissing(Init(ends));
      Split(ends);
      GuestsConcat(Init(ends), [e]);
      SoleGuest(e);
    }
  }

  lemma SoleGuest(e: GuestEnd)
    ensures Guests([e]) == [if e.Served? then e.pair.guest else e.guest]
  {}

  lemma {:induction false} MissingIfLost(ends: seq<GuestEnd>)
    ensures Missing(ends) == multiset{} <==> !AnyLost(ends)
    decreases |ends|
  {
    if ends != [] {
      MissingIfLost(Init(ends));
      if AnyLost(Init(ends)) {
        var k :| 0 <= k < |Init(ends)| && Init(ends)[k].Lost?;
        assert ends[k].Lost?;
      }
    }
  }

  /** All visitors that arrived are bridged, closed, waiting, turned away or trying again, if and only if
      no waiting visitor was ever handed to a dead connection. */
  lemma VisitorsLostExactly(limit: nat, p: string, ops: seq<Op>)
    ensures var l, s := Book(limit, p, ops), After(limit, ops);
            GuestArrivals(p, ops) == Seen(l.settled) + multiset(At(s.desk.guests, p)) + multiset(l.turnedAway) +
                                     Retrying(s.retrying, p)
            <==> !EverHandsDead(limit, p, ops)
  {
    var l, s := Book(limit, p, ops), After(limit, ops);
    RunConserves(limit, p, ops);
    SeenOrMissing(l.settled);
    MissingIfLost(l.settled);
    LostWhenHanded(limit, p, ops);
    var others := multiset(At(s.desk.guests, p)) + multiset(l.turnedAway) + Retrying(s.retrying, p);
    NothingMissing(GuestArrivals(p, ops), Seen(l.settled), Missing(l.settled), others);
    assert Seen(l.settled) + multiset(At(s.desk.guests, p)) + multiset(l.turnedAway) + Retrying(s.retrying, p)
        == Seen(l.settled) + others;
  }

  lemma NothingMissing<T>(all: multiset<T>, seen: multiset<T>, missing: multiset<T>, others: multiset<T>)
    requires all == seen + missing + others
    ensures all == seen + others <==> missing == multiset{}
  {
    if missing != multiset{} {
      var x :| x in missing;
      assert all[x] > (seen + others)[x];
    }
  }

  lemma {:induction false} LostWhenHanded(limit: nat, p: string, ops: seq<Op>)
    ensures AnyLost(Book(limit, p, ops).settled) <==> EverHandsDead(limit, p, ops)
    decreases |ops|
  {
    if ops != [] {
      LostWhenHanded(limit, p, Init(ops));
      EntryLoses(Book(limit, p, Init(ops)), After(limit, Init(ops)), p, Last(ops));
    }
  }

  lemma EntryLoses(l: Ledger, s: System, p: string, op: Op)
    ensures AnyLost(Entry(l, s, p, op).settled) <==> AnyLost(l.settled) || HandsDead(s, p, op)
  {
    var m := Entry(l, s, p, op);
    assert l.settled <= m.settled;
    if AnyLost(l.settled) {
      var k :| 0 <= k < |l.settled| && l.settled[k].Lost?;
      assert m.settled[k].Lost?;
    }
    if HandsDead(s, p, op) { assert m.settled[|l.settled|] == Lost(At(s.desk.guests, p)[0]); }
  }

  /** A visitor that waits, and a dead connection for it. */
  lemma DeadArrivalLoses(limit: nat, p: string, guest: Guest, work: Conn)
    ensures var ops := [ArriveGuest(p, guest, true), ArriveWork(p, work, false)];
            Book(limit, p, ops).settled == [Lost(guest)] && At(After(limit, ops).desk.guests, p) == []
            && After(limit, ops).retrying == []
  {
    var first, ops := [ArriveGuest(p, guest, true)], [ArriveGuest(p, guest, true), ArriveWork(p, work, false)];
    assert Init(ops) == first && Init(first) == [];
    var start := Fresh(limit);
    assert After(limit, []) == start && GuestOutcome(start.desk, p, guest) == Staged;
    assert At(start.desk.guests, p) + [guest] == [guest];
    var waiting := After(limit, first);
    assert waiting == Next(start, first[0]) && waiting.desk.guests == map[][p := [guest]] && waiting.retrying == [];
    assert WorkOutcome(waiting.desk, p, work) == Paired(Pairing(guest, work));
    assert Book(limit, p, first).settled == [];
  }

  /** A work connection goes to a pool that is closed while its broker is not, and no visitor of
      its proxy waits. */
  predicate Strands(s: System, p: string, op: Op) {
    op.ArriveWork? && op.name == p && !s.desk.closed && s.desk.works.closed && At(s.desk.guests, p) == []
  }

  predicate EverStrands(limit: nat, p: string, ops: seq<Op>)
    decreases |ops|
  {
    ops != [] && (EverStrands(limit, p, Init(ops)) || Strands(After(limit, Init(ops)), p, Last(ops)))
  }

  /** All connections that arrived have left the pool with a known end, are idle or were refused, if and
      only if none was parked in a pool retired on its own. */
  lemma LossesExactly(limit: nat, p: string, ops: seq<Op>)
    ensures var l, s := Book(limit, p, ops), After(limit, ops);
            WorkArrivals(p, ops) == multiset(Works(l.spent)) + multiset(At(s.desk.works.staged, p)) +
                                    multiset(l.refused)
            <==> !EverStrands(limit, p, ops)
  {
    var l, s := Book(limit, p, ops), After(limit, ops);
    RunConserves(limit, p, ops);
    StrandedWhenParked(limit, p, ops);
    var others := multiset(At(s.desk.works.staged, p)) + multiset(l.refused);
    NothingMissing(WorkArrivals(p, ops), multiset(Works(l.spent)), multiset(l.stranded), others);
    assert multiset(Works(l.spent)) + multiset(At(s.desk.works.staged, p)) + multiset(l.refused)
        == multiset(Works(l.spent)) + others;
    assert l.stranded == [] <==> multiset(l.stranded) == multiset{} by {
      if l.stranded != [] { assert l.stranded[0] in multiset(l.stranded); }
    }
  }

  lemma {:induction false} StrandedWhenParked(limit: nat, p: string, ops: seq<Op>)
    ensures Book(limit, p, ops).stranded != [] <==> EverStrands(limit, p, ops)
    decreases |ops|
  {
    if ops != [] {
      StrandedWhenParked(limit, p, Init(ops));
      EntryStrands(Book(limit, p, Init(ops)), After(limit, Init(ops)), p, Last(ops));
    }
  }

  lemma EntryStrands(l: Ledger, s: System, p: string, op: Op)
    ensures Entry(l, s, p, op).stranded == l.stranded + if Strands(s, p, op) then [op.work] else []
  {}

  /** A broker whose pool is never retired on its own loses no connection. */
  lemma {:induction false} NoRetiringNoLoss(limit: nat, p: string, ops: seq<Op>)
    requires RetireWorks !in ops
    ensures !EverStrands(limit, p, ops) && (After(limit, ops).desk.works.closed ==> After(limit, ops).desk.closed)
    decreases |ops|
  {
    if ops != [] {
      Split(ops);
      NoRetiringNoLoss(limit, p, Init(ops));
      RetiredOnlyByRetiring(After(limit, Init(ops)), Last(ops));
    }
  }

  lemma RetiredOnlyByRetiring(s: System, op: Op)
    requires op != RetireWorks && (s.desk.works.closed ==> s.desk.closed)
    ensures Next(s, op).desk.works.closed ==> Next(s, op).desk.closed
  {}

  /** A parked connection that is neither kept nor closed. */
  lemma ParkAfterRetireLoses(limit: nat, p: string, work: Conn, live: bool)
    ensures var ops := [RetireWorks, ArriveWork(p, work, live)];
            && Book(limit, p, ops).stranded == [work]
            && WorkOutcome(After(limit, [RetireWorks]).desk, p, work) == Staged
            && At(After(limit, ops).desk.works.staged, p) == []
  {
    var ops := [RetireWorks, ArriveWork(p, work, live)];
    assert Init(ops) == [RetireWorks] && Init([RetireWorks]) == [];
    StrandedWhenParked(limit, p, ops);
  }

  // Who is turned away.

  /** In every run an attempt to pair a visitor ends thus: with an idle connection it is paired with the
      oldest, and bridged if that is live; with none it waits, unless 64 wait already. It is turned away if
      and only if the broker is closed, 64 wait, or the connection of its last attempt is dead. */
  lemma AttemptIsExact(limit: nat, p: string, ops: seq<Op>, op: Op)
    requires Asked(After(limit, ops), op).Some? && Asked(After(limit, ops), op).value.name == p
    requires op.ArriveGuest? || op.RetryGuest?
    ensures var s, l := After(limit, ops), Book(limit, p, ops);
            var a, m := Asked(s, op).value, Entry(l, s, p, op);
            var waiting, idle := At(s.desk.guests, p), At(s.desk.works.staged, p);
            var away := s.desk.closed || |waiting| == 64 || (idle != [] && !op.live && a.tries >= 32);
            && m.turnedAway == (if away then l.turnedAway + [a.guest] else l.turnedAway)
            && m.settled == (if !s.desk.closed && idle != [] && op.live
                             then l.settled + [Served(Pairing(a.guest, idle[0]))] else l.settled)
            && At(Next(s, op).desk.guests, p) == (if !away && idle == [] then waiting + [a.guest] else waiting)
            && At(Next(s, op).desk.works.staged, p) == (if idle == [] then idle else idle[1..])
  {
    RunExclusive(limit, p, ops);
    hide After, Book;
    EntryIsExact(Book(limit, p, ops), After(limit, ops), p, op);
    DeskIsExact(After(limit, ops), p, op);
  }

  lemma EntryIsExact(l: Ledger, s: System, p: string, op: Op)
    requires Exclusive(s.desk, p) && (op.ArriveGuest? || op.RetryGuest?)
    requires Asked(s, op).Some? && Asked(s, op).value.name == p
    ensures var a, m := Asked(s, op).value, Entry(l, s, p, op);
            var waiting, idle := At(s.desk.guests, p), At(s.desk.works.staged, p);
            var away := s.desk.closed || |waiting| == 64 || (idle != [] && !op.live && a.tries >= 32);
            && m.turnedAway == (if away then l.turnedAway + [a.guest] else l.turnedAway)
            && m.settled == (if !s.desk.closed && idle != [] && op.live
                             then l.settled + [Served(Pairing(a.guest, idle[0]))] else l.settled)
  {}

  lemma DeskIsExact(s: System, p: string, op: Op)
    requires Exclusive(s.desk, p) && (op.ArriveGuest? || op.RetryGuest?)
    requires Asked(s, op).Some? && Asked(s, op).value.name == p
    ensures var waiting, idle := At(s.desk.guests, p), At(s.desk.works.staged, p);
            var waits := !s.desk.closed && |waiting| < 64 && idle == [];
            && At(Next(s, op).desk.guests, p) == (if waits then waiting + [Asked(s, op).value.guest] else waiting)
            && At(Next(s, op).desk.works.staged, p) == (if idle == [] then idle else idle[1..])
  {}

  /** How many visitors of all proxies met a full queue. */
  function FullQueues(limit: nat, ops: seq<Op>): nat
    decreases |ops|
  {
    if ops == [] then 0
    else
      var s := After(limit, Init(ops));
      var asked := Asked(s, Last(ops));
      var full := asked.Some? && !s.desk.closed && At(s.desk.works.staged, asked.value.name) == [] &&
                  |At(s.desk.guests, asked.value.name)| >= 64;
      FullQueues(limit, Init(ops)) + if full then 1 else 0
  }

  /** Every refusal for want of room is counted, and nothing else. */
  lemma {:induction false} RefusalsAreCounted(limit: nat, ops: seq<Op>)
    ensures After(limit, ops).desk.rejected == FullQueues(limit, ops)
    decreases |ops|
  {
    if ops != [] {
      RefusalsAreCounted(limit, Init(ops));
      CountStep(After(limit, Init(ops)), Last(ops));
    }
  }

  lemma CountStep(s: System, op: Op)
    ensures var asked := Asked(s, op);
            var full := asked.Some? && GuestOutcome(s.desk, asked.value.name, asked.value.guest) == CapacityFull;
            Next(s, op).desk.rejected == s.desk.rejected + if full then 1 else 0
  {}

  /** Nothing that could pair or close the visitors of a proxy. */
  predicate LeavesVisitors(p: string, op: Op) {
    !(op.ArriveWork? && op.name == p) && !(op.DropGuests? && op.name == p) && !op.CloseAll?
  }

  /** Once a broker has been swapped out, work connections go to its successor; the visitors it holds
      wait on, whatever else still happens to it. */
  lemma {:induction false} VisitorsWaitOn(limit: nat, p: string, ops: seq<Op>, more: seq<Op>)
    requires forall k :: 0 <= k < |more| ==> LeavesVisitors(p, more[k])
    ensures At(After(limit, ops).desk.guests, p) <= At(After(limit, ops + more).desk.guests, p)
    decreases |more|
  {
    if more == [] {
      assert ops + more == ops;
    } else {
      VisitorsWaitOn(limit, p, ops, Init(more));
      assert ops + more == (ops + Init(more)) + [Last(more)];
      Snoc(ops + Init(more), Last(more));
      QueueOnlyGrows(After(limit, ops + Init(more)), p, Last(more));
    }
  }

  lemma QueueOnlyGrows(s: System, p: string, op: Op)
    requires LeavesVisitors(p, op)
    ensures At(s.desk.guests, p) <= At(Next(s, op).desk.guests, p)
  {}
}
