/** The bounded event buffer of one subscription and the hub that fans events out. */
module Events {
  import opened Subsequences

  datatype Level = Diagnostic | Normal | Critical

  datatype Event = Ordinary(level: Level, id: nat) | ResyncRequired(dropped: nat) | EngineStopped(reason: nat)

  function LevelOf(e: Event): Level {
    match e
    case Ordinary(level, _) => level
    case _ => Critical
  }

  const DEFAULT_CAPACITY: nat := 64
  const MAX_CAPACITY: nat := 1024

  /** A subscription as a value; `buffer` is the channel, oldest first. */
  datatype Sub = Sub(capacity: nat, buffer: seq<Event>, closed: bool, dropped: nat, resyncPending: bool,
                     discardTotal: nat)

  function Open(wanted: int): (s: Sub)
    ensures 1 <= s.capacity <= MAX_CAPACITY && (1 <= wanted <= MAX_CAPACITY ==> s.capacity == wanted)
  {
    Sub(if wanted <= 0 then DEFAULT_CAPACITY else if wanted > MAX_CAPACITY then MAX_CAPACITY else wanted,
        [], false, 0, false, 0)
  }

  predicate Full(s: Sub) { |s.buffer| >= s.capacity }

  /** Where the oldest event below critical sits, or the length if all are critical. */
  function OldestLesser(q: seq<Event>): (i: nat)
    ensures i <= |q|
    ensures forall k :: 0 <= k < i ==> LevelOf(q[k]).Critical?
    ensures i < |q| ==> !LevelOf(q[i]).Critical?
  {
    if q == [] then 0
    else if !LevelOf(q[0]).Critical? then 0
    else 1 + OldestLesser(q[1..])
  }

  /** Without its oldest event below critical, or without its oldest if all are critical. */
  function Evict(q: seq<Event>): seq<Event> {
    var i := OldestLesser(q);
    if i < |q| then q[..i] + q[i + 1..] else if q == [] then [] else q[1..]
  }

  function WithResync(s: Sub): Sub {
    if s.dropped == 0 || s.resyncPending then s else
    var room := if Full(s) then Evict(s.buffer) else s.buffer;
    s.(resyncPending := true, buffer := room + [ResyncRequired(s.dropped)])
  }

  function Enqueued(s: Sub, e: Event): Sub {
    if s.closed then s
    else if !Full(s) then WithResync(s.(buffer := s.buffer + [e]))
    else match LevelOf(e)
    case Diagnostic => s
    case Normal => WithResync(s.(dropped := s.dropped + 1, discardTotal := s.discardTotal + 1))
    case Critical => WithResync(s.(buffer := Evict(s.buffer) + [e], discardTotal := s.discardTotal + 1))
  }

  /** `now` is `q` without one event: the oldest below critical, or the oldest if all are critical. */
  predicate OldestLeft(q: seq<Event>, now: seq<Event>) {
    exists i :: 0 <= i < |q| && now == q[..i] + q[i + 1..]
                && (forall k :: 0 <= k < i ==> LevelOf(q[k]) == Critical)
                && (LevelOf(q[i]) == Critical ==> i == 0 && forall k :: 0 <= k < |q| ==> LevelOf(q[k]) == Critical)
  }

  lemma EvictOldestLeft(q: seq<Event>)
    requires q != []
    ensures OldestLeft(q, Evict(q))
  {
    var i := if OldestLesser(q) < |q| then OldestLesser(q) else 0;
    assert Evict(q) == q[..i] + q[i + 1..];
  }

  /** What one offer does to an open subscription. Below capacity the event goes in. A full buffer does
      not take a diagnostic event, nor a normal one, the first of which is announced; for an announcement
      and for a critical event the oldest event makes room. */
  predicate Degrades(s: Sub, e: Event, t: Sub) {
    && t.capacity == s.capacity && t.closed == s.closed
    && if |s.buffer| < s.capacity then t == s.(buffer := s.buffer + [e])
       else match LevelOf(e)
       case Diagnostic => t == s
       case Normal =>
         && t.dropped == s.dropped + 1 && t.discardTotal == s.discardTotal + 1 && t.resyncPending
         && (if s.resyncPending then t.buffer == s.buffer
             else t.buffer != [] && OldestLeft(s.buffer, Init(t.buffer)) && Last(t.buffer) == ResyncRequired(t.dropped))
       case Critical =>
         && t.dropped == s.dropped && t.discardTotal == s.discardTotal + 1 && t.resyncPending == s.resyncPending
         && t.buffer != [] && OldestLeft(s.buffer, Init(t.buffer)) && Last(t.buffer) == e
  }

  lemma EnqueuedDegrades(s: Sub, e: Event)
    requires Sound(s) && !s.closed
    ensures Degrades(s, e, Enqueued(s, e))
  {
    if Full(s) { EvictOldestLeft(s.buffer); }
  }

  class Subscription {
    const capacity: nat
    var events: seq<Event>
    var closed: bool
    var droppedSinceResync: nat
    var resyncPending: bool
    var discardTotal: nat

    ghost function Model(): Sub
      reads this
    {
      Sub(capacity, events, closed, droppedSinceResync, resyncPending, discardTotal)
    }

    constructor (wanted: int)
      ensures Model() == Open(wanted)
    {
      capacity := if wanted <= 0 then DEFAULT_CAPACITY else if wanted > MAX_CAPACITY then MAX_CAPACITY else wanted;
      events, closed, droppedSinceResync, resyncPending, discardTotal := [], false, 0, false, 0;
    }

    /** Never blocks: a full buffer gives way by level. */
    method Enqueue(e: Event)
      requires Sound(Model())
      modifies this
      ensures Model() == Enqueued(old(Model()), e)
      ensures if old(closed) then Model() == old(Model()) else Degrades(old(Model()), e, Model())
    {
      EnqueueKeepsSound(Model(), e);
      if closed {
        return;
      }
      EnqueuedDegrades(Model(), e);
      if |events| >= capacity {
        match LevelOf(e) {
          case Diagnostic =>
            return;
          case Normal =>
            droppedSinceResync, discardTotal := droppedSinceResync + 1, discardTotal + 1;
            PublishResync();
            return;
          case Critical =>
            EvictOldest();
            discardTotal := discardTotal + 1;
        }
      }
      if |events| < capacity {
        events := events + [e];
      }
      PublishResync();
    }

    /** Drains the channel and puts back all but one event. */
    method EvictOldest()
      requires events != []
      modifies this`events
      ensures events == Evict(old(events)) && OldestLeft(old(events), events)
    {
      hide OldestLeft;
      EvictOldestLeft(events);
      var flattened := Drain();
      var index := 0;
      while index < |flattened| && LevelOf(flattened[index]).Critical?
        invariant 0 <= index <= |flattened|
        invariant forall k :: 0 <= k < index ==> LevelOf(flattened[k]).Critical?
      {
        index := index + 1;
      }
      if index < |flattened| {
        Refill(flattened[..index] + flattened[index + 1..]);
      } else {
        Refill(flattened[1..]);
      }
    }

    method Drain() returns (flattened: seq<Event>)
      modifies this`events
      ensures flattened == old(events) && events == []
    {
      flattened := [];
      while events != []
        invariant flattened + events == old(events)
        decreases |events|
      {
        flattened, events := flattened + [events[0]], events[1..];
      }
    }

    method Refill(kept: seq<Event>)
      modifies this`events
      ensures events == old(events) + kept
    {
      for k := 0 to |kept|
        invariant events == old(events) + kept[..k]
      {
        events := events + [kept[k]];
      }
    }

    method PublishResync()
      requires |events| <= capacity && capacity > 0
      modifies this
      ensures Model() == WithResync(old(Model()))
    {
      if droppedSinceResync == 0 || resyncPending {
        return;
      }
      resyncPending := true;
      if |events| >= capacity {
        EvictOldest();
      }
      if |events| < capacity {
        events := events + [ResyncRequired(droppedSinceResync)];
      }
    }

    /** The host takes the oldest event. */
    method Receive() returns (e: Event)
      requires events != []
      modifies this`events
      ensures [e] + events == old(events)
    {
      e, events := events[0], events[1..];
    }

    /** Stops accepting; what is buffered can still be read. */
    method Close()
      modifies this`closed
      ensures closed
    {
      if closed {
        return;
      }
      closed := true;
    }
  }

  /** What holds of every subscription at all times. */
  predicate Sound(s: Sub) {
    s.capacity >= 1 && |s.buffer| <= s.capacity && (s.dropped > 0 ==> s.resyncPending)
  }

  lemma EnqueueKeepsSound(s: Sub, e: Event)
    requires Sound(s)
    ensures Sound(Enqueued(s, e)) && Enqueued(s, e).capacity == s.capacity
  {}

  // Runs.

  datatype Op = Offer(event: Event) | Consume

  /** A subscription with its history: what was offered, put in, and read. */
  datatype Ledger = Ledger(sub: Sub, offered: nat, diagnosticsDropped: nat, normalsDropped: nat, inserted: seq<Event>,
                           consumed: seq<Event>)

  function Start(wanted: int): Ledger { Ledger(Open(wanted), 0, 0, 0, [], []) }

  /** The events one offer puts into the buffer: the event itself, a resync notice, or none. */
  function Inserts(s: Sub, e: Event): seq<Event> {
    if s.closed || (Full(s) && LevelOf(e).Diagnostic?) then []
    else if Full(s) && LevelOf(e).Normal? then (if s.resyncPending then [] else [ResyncRequired(s.dropped + 1)])
    else [e]
  }

  function Step(l: Ledger, op: Op): Ledger {
    match op
    case Offer(e) =>
      Ledger(Enqueued(l.sub, e), l.offered + 1,
             l.diagnosticsDropped + (if Full(l.sub) && LevelOf(e).Diagnostic? then 1 else 0),
             l.normalsDropped + (if Full(l.sub) && LevelOf(e).Normal? then 1 else 0),
             l.inserted + Inserts(l.sub, e), l.consumed)
    case Consume =>
      if l.sub.buffer == [] then l
      else l.(sub := l.sub.(buffer := l.sub.buffer[1..]), consumed := l.consumed + [l.sub.buffer[0]])
  }

  function Run(l: Ledger, ops: seq<Op>): Ledger {
    if ops == [] then l else Step(Run(l, Init(ops)), Last(ops))
  }

  function CriticalOf(q: seq<Event>): (r: seq<Event>)
    ensures |r| <= |q|
  {
    if q == [] then []
    else if LevelOf(Last(q)).Critical? then CriticalOf(Init(q)) + [Last(q)]
    else CriticalOf(Init(q))
  }

  /** Criticals put in and not yet read. */
  function Owed(l: Ledger): int { |CriticalOf(l.inserted)| - |CriticalOf(l.consumed)| }

  /** Conservation, at any moment of any run on an open subscription. The resync notice is
      not an offered event, and the event it pushes out is counted by neither counter. */
  ghost predicate Conserved(l: Ledger) {
    && Sound(l.sub)
    && l.offered == |l.sub.buffer| + |l.consumed| + l.diagnosticsDropped + l.sub.discardTotal
    && Subseq(l.consumed + l.sub.buffer, l.inserted)
    && (l.sub.resyncPending <==> l.sub.dropped > 0) && l.sub.dropped == l.normalsDropped
  }

  lemma {:induction false} RunConserves(wanted: int, ops: seq<Op>)
    ensures var l := Run(Start(wanted), ops);
            Conserved(l) && !l.sub.closed && |l.sub.buffer| <= l.sub.capacity
    decreases |ops|
  {
    if ops != [] {
      RunConserves(wanted, Init(ops));
      StepConserves(Run(Start(wanted), Init(ops)), Last(ops));
    }
  }

  lemma StepConserves(l: Ledger, op: Op)
    requires Conserved(l) && !l.sub.closed
    ensures Conserved(Step(l, op)) && !Step(l, op).sub.closed
  {
    match op
    case Consume =>
      if l.sub.buffer != [] {
        MoveHead(l.consumed, l.sub.buffer);
      }
    case Offer(e) =>
      OfferInserts(l.sub, e);
      OfferSubseq(l, e);
  }

  lemma MoveHead(a: seq<Event>, b: seq<Event>)
    requires b != []
    ensures a + [b[0]] + b[1..] == a + b
  {}

  /** What the buffer keeps when an offer puts something in. */
  function Kept(s: Sub): seq<Event> { if Full(s) then Evict(s.buffer) else s.buffer }

  lemma OfferInserts(s: Sub, e: Event)
    requires Sound(s) && !s.closed
    ensures var put := Inserts(s, e);
            |put| <= 1 && Enqueued(s, e).buffer == if put == [] then s.buffer else Kept(s) + put
  {}

  lemma OfferSubseq(l: Ledger, e: Event)
    requires Conserved(l) && !l.sub.closed
    ensures Subseq(l.consumed + Enqueued(l.sub, e).buffer, l.inserted + Inserts(l.sub, e))
  {
    var s, put := l.sub, Inserts(l.sub, e);
    OfferInserts(s, e);
    if put == [] {
      assert l.inserted + put == l.inserted;
    } else {
      KeptSubseq(l.consumed, s);
      SubseqTrans(l.consumed + Kept(s), l.consumed + s.buffer, l.inserted);
      SubseqSnoc(l.consumed + Kept(s), l.inserted, put[0]);
      assert put == [put[0]];
      Regroup(l.consumed, Kept(s), put);
    }
  }

  lemma Regroup(a: seq<Event>, b: seq<Event>, c: seq<Event>)
    ensures a + (b + c) == a + b + c
  {}

  lemma KeptSubseq(before: seq<Event>, s: Sub)
    ensures Subseq(before + Kept(s), before + s.buffer)
  {
    if Full(s) && s.buffer != [] {
      var i := OldestLesser(s.buffer);
      EvictSubseq(before, s.buffer, if i < |s.buffer| then i else 0);
    } else {
      SubseqRefl(before + s.buffer);
    }
  }

  lemma EvictSubseq(before: seq<Event>, q: seq<Event>, i: nat)
    requires i < |q|
    ensures Subseq(before + (q[..i] + q[i + 1..]), before + q)
    ensures i == 0 ==> q[..i] + q[i + 1..] == q[1..]
  {
    var all, at := before + q, |before| + i;
    SubseqWithout(all, at);
    assert all[..at] == before + q[..i];
    assert all[at + 1..] == q[i + 1..];
    Regroup(before, q[..i], q[i + 1..]);
  }

  // Retention of criticals.

  lemma {:induction false} CriticalOfConcat(a: seq<Event>, b: seq<Event>)
    ensures CriticalOf(a + b) == CriticalOf(a) + CriticalOf(b)
    decreases |b|
  {
    if b == [] {
      assert a + b == a;
    } else {
      var e := Last(b);
      CriticalOfConcat(a, Init(b));
      Split(b);
      Regroup(a, Init(b), [e]);
      Snoc(a + Init(b), e);
      if LevelOf(e).Critical? { Regroup(CriticalOf(a), CriticalOf(Init(b)), [e]); }
    }
  }

  lemma {:induction false} CriticalOfSubseq(a: seq<Event>, b: seq<Event>)
    requires Subseq(a, b)
    ensures Subseq(CriticalOf(a), CriticalOf(b))
    decreases |b|
  {
    if a != [] {
      var y := Last(b);
      if Subseq(a, Init(b)) {
        CriticalOfSubseq(a, Init(b));
        SubseqLonger(CriticalOf(a), CriticalOf(Init(b)), y);
      } else {
        CriticalOfSubseq(Init(a), Init(b));
        SubseqSnoc(CriticalOf(Init(a)), CriticalOf(Init(b)), y);
      }
    }
  }

  /** The criticals put in that were neither read nor are still buffered. */
  function Lost(l: Ledger): int {
    |CriticalOf(l.inserted)| - |CriticalOf(l.consumed)| - |CriticalOf(l.sub.buffer)|
  }

  /** Evicting takes a critical only from a buffer of criticals alone. */
  lemma EvictCriticals(q: seq<Event>)
    requires q != []
    ensures |CriticalOf(Evict(q))| == if OldestLesser(q) < |q| then |CriticalOf(q)| else |q| - 1
    ensures OldestLesser(q) < |q| <==> |CriticalOf(q)| < |q|
  {
    var i := OldestLesser(q);
    if i < |q| {
      var before, after := q[..i], q[i + 1..];
      assert q == before + [q[i]] + after;
      assert CriticalOf([q[i]]) == [];
      CriticalOfConcat(before + [q[i]], after);
      CriticalOfConcat(before, [q[i]]);
      CriticalOfConcat(before, after);
    } else {
      AllCritical(q);
      AllCritical(q[1..]);
    }
  }

  lemma {:induction false} AllCritical(q: seq<Event>)
    requires forall k :: 0 <= k < |q| ==> LevelOf(q[k]).Critical?
    ensures CriticalOf(q) == q
    decreases |q|
  {
    if q != [] {
      AllCritical(Init(q));
      Split(q);
    }
  }

  lemma StepLoses(l: Ledger, op: Op)
    requires Sound(l.sub) && !l.sub.closed
    ensures Lost(Step(l, op)) >= Lost(l)
    ensures Lost(l) == 0 ==> (Lost(Step(l, op)) == 0 <==> Owed(Step(l, op)) <= l.sub.capacity)
  {
    match op
    case Consume =>
      if l.sub.buffer != [] { ConsumeLoses(l.consumed, l.sub.buffer); }
    case Offer(e) =>
      OfferLoses(l.sub, e);
      CriticalOfConcat(l.inserted, Inserts(l.sub, e));
  }

  lemma ConsumeLoses(consumed: seq<Event>, buffer: seq<Event>)
    requires buffer != []
    ensures |CriticalOf(consumed + [buffer[0]])| + |CriticalOf(buffer[1..])| ==
            |CriticalOf(consumed)| + |CriticalOf(buffer)|
  {
    CriticalOfConcat(consumed, [buffer[0]]);
    CriticalOfConcat([buffer[0]], buffer[1..]);
    HeadAndTail(buffer);
  }

  lemma HeadAndTail(q: seq<Event>)
    requires q != []
    ensures [q[0]] + q[1..] == q
  {}

  /** An offer drops a critical exactly when the buffer holds criticals only and another comes. */
  lemma OfferLoses(s: Sub, e: Event)
    requires Sound(s) && !s.closed
    ensures var put := Inserts(s, e);
            |CriticalOf(Enqueued(s, e).buffer)| ==
            (if |CriticalOf(s.buffer)| + |CriticalOf(put)| > s.capacity then s.capacity
             else |CriticalOf(s.buffer)| + |CriticalOf(put)|)
  {
    hide CriticalOf, Evict, OldestLesser;
    var put := Inserts(s, e);
    OfferInserts(s, e);
    if put == [] {
      CriticalOfConcat(s.buffer, put);
      assert s.buffer + put == s.buffer;
    } else {
      CriticalOfConcat(Kept(s), put);
      KeptCriticals(s, put);
    }
  }

  /** Making room costs a critical only if there is nothing else in the buffer. */
  lemma KeptCriticals(s: Sub, put: seq<Event>)
    requires Sound(s) && |put| == 1 && (Full(s) ==> LevelOf(put[0]).Critical?)
    ensures |CriticalOf(Kept(s))| + |CriticalOf(put)| ==
            (if |CriticalOf(s.buffer)| + |CriticalOf(put)| > s.capacity then s.capacity
             else |CriticalOf(s.buffer)| + |CriticalOf(put)|)
  {
    if Full(s) {
      EvictCriticals(s.buffer);
      AllCritical(put);
    }
  }

  /** At every moment of the run the criticals awaiting the reader fit the capacity. */
  ghost predicate NeverOverloaded(wanted: int, ops: seq<Op>)
    decreases |ops|
  {
    && Owed(Run(Start(wanted), ops)) <= Open(wanted).capacity
    && (ops != [] ==> NeverOverloaded(wanted, Init(ops)))
  }

  lemma {:induction false} RunLoses(wanted: int, ops: seq<Op>)
    ensures Lost(Run(Start(wanted), ops)) >= 0
    ensures Lost(Run(Start(wanted), ops)) == 0 <==> NeverOverloaded(wanted, ops)
    ensures Run(Start(wanted), ops).sub.capacity == Open(wanted).capacity
    decreases |ops|
  {
    if ops != [] {
      RunLoses(wanted, Init(ops));
      RunConserves(wanted, Init(ops));
      StepLoses(Run(Start(wanted), Init(ops)), Last(ops));
      assert Run(Start(wanted), ops) == Step(Run(Start(wanted), Init(ops)), Last(ops));
    }
  }

  /** Critical events are kept, in order, exactly when the criticals awaiting the reader,
      resync notice included, never outnumber the capacity. */
  lemma CriticalsKept(wanted: int, ops: seq<Op>)
    ensures var l := Run(Start(wanted), ops);
            CriticalOf(l.consumed + l.sub.buffer) == CriticalOf(l.inserted) <==> NeverOverloaded(wanted, ops)
  {
    var l := Run(Start(wanted), ops);
    RunConserves(wanted, ops);
    RunLoses(wanted, ops);
    CriticalOfConcat(l.consumed, l.sub.buffer);
    CriticalOfSubseq(l.consumed + l.sub.buffer, l.inserted);
    SubseqShorter(CriticalOf(l.consumed + l.sub.buffer), CriticalOf(l.inserted));
  }

  // Which events are kept.

  /** `q` is the end of `all`. */
  predicate Ends(q: seq<Event>, all: seq<Event>) { |q| <= |all| && all[|all| - |q|..] == q }

  function LesserOf(q: seq<Event>): (r: seq<Event>)
    ensures |r| <= |q|
  {
    if q == [] then []
    else if LevelOf(Last(q)) != Critical then LesserOf(Init(q)) + [Last(q)]
    else LesserOf(Init(q))
  }

  lemma {:induction false} LesserOfConcat(a: seq<Event>, b: seq<Event>)
    ensures LesserOf(a + b) == LesserOf(a) + LesserOf(b)
    decreases |b|
  {
    if b == [] {
      assert a + b == a;
    } else {
      var e := Last(b);
      LesserOfConcat(a, Init(b));
      Split(b);
      Regroup(a, Init(b), [e]);
      Snoc(a + Init(b), e);
      if LevelOf(e) != Critical { Regroup(LesserOf(a), LesserOf(Init(b)), [e]); }
    }
  }

  lemma {:induction false} NoneLesser(q: seq<Event>)
    requires forall k :: 0 <= k < |q| ==> LevelOf(q[k]) == Critical
    ensures LesserOf(q) == []
    decreases |q|
  {
    if q != [] { NoneLesser(Init(q)); }
  }

  /** Leaving out the oldest of a kind leaves the newest. */
  lemma LeftEnds(q: seq<Event>, now: seq<Event>)
    requires OldestLeft(q, now)
    ensures Ends(CriticalOf(now), CriticalOf(q)) && Ends(LesserOf(now), LesserOf(q))
  {
    hide CriticalOf, LesserOf, LevelOf, Ends;
    var i :| 0 <= i < |q| && now == q[..i] + q[i + 1..]
             && (forall k :: 0 <= k < i ==> LevelOf(q[k]) == Critical)
             && (LevelOf(q[i]) == Critical ==> i == 0);
    assert q == q[..i] + [q[i]] + q[i + 1..];
    OneLeftEnds(q[..i], q[i], q[i + 1..]);
  }

  lemma OneLeftEnds(a: seq<Event>, e: Event, b: seq<Event>)
    requires forall k :: 0 <= k < |a| ==> LevelOf(a[k]) == Critical
    requires LevelOf(e) == Critical ==> a == []
    ensures Ends(CriticalOf(a + b), CriticalOf(a + [e] + b)) && Ends(LesserOf(a + b), LesserOf(a + [e] + b))
  {
    NoneLesser(a);
    OneOf(e);
    SplitKinds(a, e, b);
    if LevelOf(e) == Critical {
      assert CriticalOf(a) == [];
      hide *;
      EndsBehind(CriticalOf([e]), CriticalOf(b));
      EndsBehind([], LesserOf(b));
    } else {
      hide *;
      EndsBehind([], CriticalOf(a) + CriticalOf(b));
      EndsBehind(LesserOf([e]), LesserOf(b));
    }
  }

  lemma EndsBehind(a: seq<Event>, b: seq<Event>)
    ensures Ends(b, a + b)
  {}

  lemma OneOf(e: Event)
    ensures if LevelOf(e) == Critical then CriticalOf([e]) == [e] && LesserOf([e]) == []
            else CriticalOf([e]) == [] && LesserOf([e]) == [e]
  {
    assert Init([e]) == [] && Last([e]) == e;
  }

  lemma SplitKinds(a: seq<Event>, e: Event, b: seq<Event>)
    ensures CriticalOf(a + [e] + b) == CriticalOf(a) + CriticalOf([e]) + CriticalOf(b)
    ensures LesserOf(a + [e] + b) == LesserOf(a) + LesserOf([e]) + LesserOf(b)
    ensures CriticalOf(a + b) == CriticalOf(a) + CriticalOf(b) && LesserOf(a + b) == LesserOf(a) + LesserOf(b)
  {
    CriticalOfConcat(a + [e], b);
    CriticalOfConcat(a, [e]);
    CriticalOfConcat(a, b);
    LesserOfConcat(a + [e], b);
    LesserOfConcat(a, [e]);
    LesserOfConcat(a, b);
  }

  lemma EndsTrans(a: seq<Event>, b: seq<Event>, c: seq<Event>)
    requires Ends(a, b) && Ends(b, c)
    ensures Ends(a, c)
  {
    assert c[|c| - |a|..] == c[|c| - |b|..][|b| - |a|..];
  }

  lemma EndsAppend(a: seq<Event>, b: seq<Event>, c: seq<Event>)
    requires Ends(a, b)
    ensures Ends(a + c, b + c)
  {}

  /** The critical events in the buffer are the newest put in, and so are those below critical: of either
      kind it is always the oldest that is read or makes room. */
  lemma {:induction false} NewestAreKept(wanted: int, ops: seq<Op>)
    ensures var l := Run(Start(wanted), ops);
            Ends(CriticalOf(l.sub.buffer), CriticalOf(l.inserted)) && Ends(LesserOf(l.sub.buffer), LesserOf(l.inserted))
    decreases |ops|
  {
    if ops != [] {
      NewestAreKept(wanted, Init(ops));
      RunConserves(wanted, Init(ops));
      var l := Run(Start(wanted), Init(ops));
      match Last(ops)
      case Consume =>
        if l.sub.buffer != [] { ReadEnds(l.sub.buffer, l.inserted); }
      case Offer(e) =>
        OfferEnds(l, e);
    }
  }

  lemma ReadEnds(q: seq<Event>, inserted: seq<Event>)
    requires q != [] && Ends(CriticalOf(q), CriticalOf(inserted)) && Ends(LesserOf(q), LesserOf(inserted))
    ensures Ends(CriticalOf(q[1..]), CriticalOf(inserted)) && Ends(LesserOf(q[1..]), LesserOf(inserted))
  {
    HeadAndTail(q);
    CriticalOfConcat([q[0]], q[1..]);
    LesserOfConcat([q[0]], q[1..]);
    EndsTrans(CriticalOf(q[1..]), CriticalOf(q), CriticalOf(inserted));
    EndsTrans(LesserOf(q[1..]), LesserOf(q), LesserOf(inserted));
  }

  lemma OfferEnds(l: Ledger, e: Event)
    requires Conserved(l) && !l.sub.closed
    requires Ends(CriticalOf(l.sub.buffer), CriticalOf(l.inserted))
    requires Ends(LesserOf(l.sub.buffer), LesserOf(l.inserted))
    ensures var m := Step(l, Offer(e));
            Ends(CriticalOf(m.sub.buffer), CriticalOf(m.inserted)) && Ends(LesserOf(m.sub.buffer), LesserOf(m.inserted))
  {
    var q, put, kept := l.sub.buffer, Inserts(l.sub, e), Kept(l.sub);
    OfferInserts(l.sub, e);
    if put != [] {
      if Full(l.sub) {
        EvictOldestLeft(q);
        LeftEnds(q, kept);
        EndsTrans(CriticalOf(kept), CriticalOf(q), CriticalOf(l.inserted));
        EndsTrans(LesserOf(kept), LesserOf(q), LesserOf(l.inserted));
      }
      CriticalOfConcat(kept, put);
      CriticalOfConcat(l.inserted, put);
      LesserOfConcat(kept, put);
      LesserOfConcat(l.inserted, put);
      EndsAppend(CriticalOf(kept), CriticalOf(l.inserted), CriticalOf(put));
      EndsAppend(LesserOf(kept), LesserOf(l.inserted), LesserOf(put));
    } else {
      assert l.inserted + put == l.inserted;
    }
  }

  // The resync notice and the stop event.

  function Notices(q: seq<Event>): nat {
    if q == [] then 0 else Notices(Init(q)) + if Last(q).ResyncRequired? then 1 else 0
  }

  predicate HostEvents(ops: seq<Op>) {
    forall k :: 0 <= k < |ops| ==> ops[k] == Consume || !ops[k].event.ResyncRequired?
  }

  /** A subscription gets one resync notice in its life, when its first normal event is lost, and none
      after: the pending mark is never taken back. So it tells of one lost event, whatever is lost later. */
  lemma {:induction false} OneNotice(wanted: int, ops: seq<Op>)
    requires HostEvents(ops)
    ensures var l := Run(Start(wanted), ops);
            && Notices(l.inserted) == (if l.normalsDropped > 0 then 1 else 0)
            && forall e :: e in l.inserted && e.ResyncRequired? ==> e.dropped == 1
    decreases |ops|
  {
    if ops != [] {
      var l := Run(Start(wanted), Init(ops));
      OneNotice(wanted, Init(ops));
      RunConserves(wanted, Init(ops));
      if Last(ops).Offer? { NoticesAdd(l.inserted, Inserts(l.sub, Last(ops).event)); }
    }
  }

  lemma NoticesAdd(q: seq<Event>, put: seq<Event>)
    requires |put| <= 1
    ensures Notices(q + put) == Notices(q) + if put != [] && put[0].ResyncRequired? then 1 else 0
  {
    if put == [] {
      assert q + put == q;
    } else {
      assert put == [put[0]];
      Snoc(q, put[0]);
    }
  }

  /** Closing leaves the buffer to be read as it is: further offers change nothing. */
  lemma {:induction false} ClosedOnlyDrains(l: Ledger, ops: seq<Op>)
    requires l.sub.closed
    ensures var m := Run(l, ops);
            m.sub.closed && m.consumed + m.sub.buffer == l.consumed + l.sub.buffer
    decreases |ops|
  {
    if ops != [] {
      var m := Run(l, Init(ops));
      ClosedOnlyDrains(l, Init(ops));
      if Last(ops).Consume? && m.sub.buffer != [] {
        MoveHead(m.consumed, m.sub.buffer);
      }
    }
  }

  /** After a stop the reader's last event is the stop event, whatever else happens. */
  lemma StopIsLast(l: Ledger, reason: nat, ops: seq<Op>)
    requires Sound(l.sub) && !l.sub.closed
    ensures var stopped := Step(l, Offer(EngineStopped(reason)));
            var m := Run(stopped.(sub := stopped.sub.(closed := true)), ops);
            m.sub.buffer == [] ==> m.consumed != [] && m.consumed[|m.consumed| - 1] == EngineStopped(reason)
  {
    var stopped := Step(l, Offer(EngineStopped(reason)));
    var closed := stopped.(sub := stopped.sub.(closed := true));
    var kept := if Full(l.sub) then Evict(l.sub.buffer) else l.sub.buffer;
    assert stopped.sub.buffer == kept + [EngineStopped(reason)];
    ClosedOnlyDrains(closed, ops);
    var m := Run(closed, ops);
    if m.sub.buffer == [] {
      assert m.consumed + [] == m.consumed;
    }
  }

  /** The hub: publishes to every subscription, and on stop sends the stop event to each before
      closing any. */
  class EventHub {
    var subs: seq<Subscription>

    ghost predicate Valid()
      reads this, subs
    {
      && (forall k :: 0 <= k < |subs| ==> Sound(subs[k].Model()))
      && (forall i, j :: 0 <= i < j < |subs| ==> subs[i] != subs[j])
    }

    constructor ()
      ensures Valid() && subs == []
    {
      subs := [];
    }

    method Subscribe(wanted: int) returns (sub: Subscription)
      requires Valid()
      modifies this
      ensures Valid() && fresh(sub) && subs == old(subs) + [sub] && sub.Model() == Open(wanted)
    {
      sub := new Subscription(wanted);
      subs := subs + [sub];
    }

    method Publish(e: Event)
      requires Valid()
      modifies subs
      ensures Valid()
      ensures forall k :: 0 <= k < |subs| ==> subs[k].Model() == Enqueued(old(subs[k].Model()), e)
    {
      hide Degrades, Enqueued, Sound;
      for i := 0 to |subs|
        invariant Valid()
        invariant forall k :: 0 <= k < i ==> subs[k].Model() == Enqueued(old(subs[k].Model()), e)
        invariant forall k :: i <= k < |subs| ==> subs[k].Model() == old(subs[k].Model())
      {
        EnqueueKeepsSound(subs[i].Model(), e);
        subs[i].Enqueue(e);
      }
    }

    /** Every subscription that was open ends with the stop event and is closed; one that was
        closed is left alone. */
    method StopAll(reason: nat)
      requires Valid()
      modifies subs
      ensures Valid()
      ensures forall k :: 0 <= k < |subs| ==>
                subs[k].Model() == Enqueued(old(subs[k].Model()), EngineStopped(reason)).(closed := true)
      ensures forall k :: 0 <= k < |subs| && !old(subs[k].closed) ==>
                subs[k].events != [] && subs[k].events[|subs[k].events| - 1] == EngineStopped(reason)
    {
      hide Degrades, Evict;
      var stop := EngineStopped(reason);
      Publish(stop);
      for i := 0 to |subs|
        invariant Valid()
        invariant forall k :: 0 <= k < i ==> subs[k].Model() == Enqueued(old(subs[k].Model()), stop).(closed := true)
        invariant forall k :: i <= k < |subs| ==> subs[k].Model() == Enqueued(old(subs[k].Model()), stop)
      {
        subs[i].Close();
      }
    }
  }
}
