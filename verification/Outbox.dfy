/** The notification outbox: rows claimed under a lease, tried, retried and given up. */
module Outbox {
  import opened Wrappers
  import opened Subsequences

  datatype Status = Pending | Sending | Retrying | Sent | Failed | Discarded

  /** Times are nanoseconds on whatever clock the writer read. */
  datatype Row = Row(target: string, created: int, status: Status, attempts: nat,
                     nextAttempt: Option<int>, lease: Option<int>, stopped: Option<int>)

  datatype Table = Table(rows: map<nat, Row>, nextId: nat)

  datatype SendResult = Delivered | Refused(retryable: bool)

  /** The transactions on the table. A run is any list of them: any number of dispatchers, each
      with its own clock, its own lease and its own, possibly stale, copy of a row. */
  datatype Op =
    | Enqueue(target: string, created: int)
    | Claim(id: nat, now: int, lease: int)
    | Record(id: nat, next: nat, maxAttempts: int, delay: int, result: SendResult, now: int)
    | DiscardTarget(target: string, now: int)

  predicate Terminal(s: Status) { s.Sent? || s.Failed? || s.Discarded? }

  predicate AtMost(t: Option<int>, now: int) { t.Some? && t.value <= now }

  /** The rows a dispatcher may take. */
  predicate Due(r: Row, now: int) {
    || r.status.Pending?
    || (r.status.Retrying? && AtMost(r.nextAttempt, now))
    || (r.status.Sending? && AtMost(r.lease, now))
  }

  function Claimed(r: Row, now: int, lease: int): Row {
    r.(status := Sending, lease := Some(now + lease))
  }

  function Recorded(r: Row, op: Op): Row
    requires op.Record?
  {
    match op.result
    case Delivered => r.(status := Sent, lease := None, nextAttempt := None)
    case Refused(retryable) =>
      var tried := r.(attempts := op.next, lease := None);
      if !retryable || op.next >= op.maxAttempts
      then tried.(status := Failed, nextAttempt := None, stopped := Some(op.now))
      else tried.(status := Retrying, nextAttempt := Some(op.now + op.delay))
  }

  /** An update reaches a row only if the row still meets its condition. */
  predicate Hits(r: Row, id: nat, op: Op) {
    match op
    case Enqueue(_, _) => false
    case Claim(which, now, _) => which == id && Due(r, now)
    case Record(which, _, _, _, _, _) => which == id && r.status.Sending?
    case DiscardTarget(target, _) => r.target == target && !Terminal(r.status)
  }

  function RowAfter(r: Row, id: nat, op: Op): Row {
    if !Hits(r, id, op) then r else
    match op
    case Claim(_, now, lease) => Claimed(r, now, lease)
    case Record(_, _, _, _, _, _) => Recorded(r, op)
    case DiscardTarget(_, now) => r.(status := Discarded, nextAttempt := None, lease := None, stopped := Some(now))
    case Enqueue(_, _) => r
  }

  function Updated(rows: map<nat, Row>, op: Op): map<nat, Row> {
    map id | id in rows :: RowAfter(rows[id], id, op)
  }

  function Next(t: Table, op: Op): Table {
    if op.Enqueue? then
      Table(t.rows[t.nextId := Row(op.target, op.created, Pending, 0, None, None, None)], t.nextId + 1)
    else Table(Updated(t.rows, op), t.nextId)
  }

  function Run(t: Table, ops: seq<Op>): Table
    decreases |ops|
  {
    if ops == [] then t else Next(Run(t, Init(ops)), Last(ops))
  }

  const EMPTY := Table(map[], 1)

  // What every run keeps.

  /** A lease exactly while sending, a stop time exactly once given up, a date for every retry. */
  predicate SoundRow(r: Row) {
    && (r.lease.Some? <==> r.status.Sending?)
    && (r.stopped.Some? <==> r.status.Failed? || r.status.Discarded?)
    && (r.status.Retrying? ==> r.nextAttempt.Some?)
    && (Terminal(r.status) ==> r.nextAttempt.None?)
  }

  predicate Sound(t: Table) {
    forall id :: id in t.rows ==> id < t.nextId && SoundRow(t.rows[id])
  }

  lemma {:induction false} RunSound(ops: seq<Op>)
    ensures Sound(Run(EMPTY, ops))
    decreases |ops|
  {
    if ops != [] { RunSound(Init(ops)); }
  }

  lemma TerminalStays(t: Table, op: Op, id: nat)
    requires Sound(t) && id in t.rows && Terminal(t.rows[id].status)
    ensures Sound(Next(t, op)) && id in Next(t, op).rows && Next(t, op).rows[id] == t.rows[id]
  {}

  /** A finished row is never touched again, whatever anyone does. */
  lemma {:induction false} TerminalAbsorbs(t: Table, ops: seq<Op>, id: nat)
    requires Sound(t) && id in t.rows && Terminal(t.rows[id].status)
    ensures Sound(Run(t, ops)) && id in Run(t, ops).rows && Run(t, ops).rows[id] == t.rows[id]
    decreases |ops|
  {
    if ops != [] {
      TerminalAbsorbs(t, Init(ops), id);
      TerminalStays(Run(t, Init(ops)), Last(ops), id);
    }
  }

  predicate Records(t: Table, id: nat, op: Op) {
    op.Record? && op.id == id && id in t.rows && t.rows[id].status.Sending?
  }

  predicate Claims(t: Table, id: nat, op: Op) {
    op.Claim? && op.id == id && id in t.rows && Due(t.rows[id], op.now)
  }

  predicate NoOutcome(t: Table, id: nat, ops: seq<Op>)
    decreases |ops|
  {
    ops != [] ==> NoOutcome(t, id, Init(ops)) && !Records(Run(t, Init(ops)), id, Last(ops))
  }

  predicate PositiveLeases(ops: seq<Op>) {
    forall k :: 0 <= k < |ops| && ops[k].Claim? ==> ops[k].lease > 0
  }

  /** No two dispatchers hold a row at once: after a claim, and as long as no outcome of the row is
      recorded, the next successful claim reads a time at least one lease later. */
  lemma LeaseApart(t: Table, id: nat, first: Op, between: seq<Op>, second: Op)
    requires Sound(t) && Claims(t, id, first)
    requires PositiveLeases(between)
    requires NoOutcome(Next(t, first), id, between)
    requires Claims(Run(Next(t, first), between), id, second)
    ensures second.now >= first.now + first.lease
  {
    HeldUntil(Next(t, first), id, first.now + first.lease, between);
  }

  predicate Held(r: Row, until: int) {
    r.status.Discarded? || (r.status.Sending? && r.lease.Some? && r.lease.value >= until)
  }

  lemma {:induction false} HeldUntil(t: Table, id: nat, until: int, ops: seq<Op>)
    requires Sound(t) && id in t.rows && Held(t.rows[id], until)
    requires PositiveLeases(ops) && NoOutcome(t, id, ops)
    ensures var u := Run(t, ops);
            Sound(u) && id in u.rows && Held(u.rows[id], until)
    decreases |ops|
  {
    if ops != [] {
      HeldUntil(t, id, until, Init(ops));
      HeldStep(Run(t, Init(ops)), id, until, Last(ops));
    }
  }

  lemma HeldStep(t: Table, id: nat, until: int, op: Op)
    requires Sound(t) && id in t.rows && Held(t.rows[id], until)
    requires (op.Claim? ==> op.lease > 0) && !Records(t, id, op)
    ensures Sound(Next(t, op)) && id in Next(t, op).rows && Held(Next(t, op).rows[id], until)
  {}

  // Progress.

  predicate Fails(t: Table, id: nat, op: Op) { Records(t, id, op) && op.result.Refused? }

  /** How many failed sends of a row were recorded. */
  function Failures(id: nat, ops: seq<Op>): nat
    decreases |ops|
  {
    if ops == [] then 0
    else Failures(id, Init(ops)) + if Fails(Run(EMPTY, Init(ops)), id, Last(ops)) then 1 else 0
  }

  function Attempts(t: Table, id: nat): nat { if id in t.rows then t.rows[id].attempts else 0 }

  /** Every recorded failure came from a dispatcher whose copy of the row was up to date. */
  predicate AllFresh(id: nat, ops: seq<Op>)
    decreases |ops|
  {
    ops != [] ==>
      && AllFresh(id, Init(ops))
      && (Fails(Run(EMPTY, Init(ops)), id, Last(ops)) ==> Last(ops).next == Attempts(Run(EMPTY, Init(ops)), id) + 1)
  }

  /** At every moment the counter of the row has counted every recorded failure. */
  predicate CountsAll(id: nat, ops: seq<Op>)
    decreases |ops|
  {
    && Attempts(Run(EMPTY, ops), id) == Failures(id, ops)
    && (ops != [] ==> CountsAll(id, Init(ops)))
  }

  /** The counter is right exactly when no dispatcher wrote from a stale copy. */
  lemma {:induction false} CountsExactlyWhenFresh(id: nat, ops: seq<Op>)
    ensures CountsAll(id, ops) <==> AllFresh(id, ops)
    ensures id !in Run(EMPTY, ops).rows ==> Failures(id, ops) == 0
    decreases |ops|
  {
    if ops != [] {
      CountsExactlyWhenFresh(id, Init(ops));
      RunSound(Init(ops));
      AttemptsStep(Run(EMPTY, Init(ops)), id, Last(ops));
    }
  }

  lemma AttemptsStep(t: Table, id: nat, op: Op)
    requires Sound(t)
    ensures Attempts(Next(t, op), id) == if Fails(t, id, op) then op.next else Attempts(t, id)
  {}

  predicate SameBound(ops: seq<Op>, maxAttempts: int) {
    forall k :: 0 <= k < |ops| && ops[k].Record? ==> ops[k].maxAttempts == maxAttempts
  }

  /** A row is given up after at most `maxAttempts` recorded failures. */
  lemma {:induction false} GivesUpInTime(id: nat, ops: seq<Op>, maxAttempts: int)
    requires maxAttempts >= 1 && AllFresh(id, ops) && SameBound(ops, maxAttempts)
    ensures Failures(id, ops) <= maxAttempts
    ensures Failures(id, ops) == maxAttempts ==>
              id in Run(EMPTY, ops).rows && Run(EMPTY, ops).rows[id].status == Failed
    decreases |ops|
  {
    if ops != [] {
      GivesUpInTime(id, Init(ops), maxAttempts);
      CountsExactlyWhenFresh(id, Init(ops));
      RunSound(Init(ops));
    }
  }

  lemma AddOp(id: nat, ops: seq<Op>, op: Op)
    ensures Run(EMPTY, ops + [op]) == Next(Run(EMPTY, ops), op)
    ensures Failures(id, ops + [op]) == Failures(id, ops) + if Fails(Run(EMPTY, ops), id, op) then 1 else 0
    ensures AllFresh(id, ops + [op]) <==>
            AllFresh(id, ops) && (Fails(Run(EMPTY, ops), id, op) ==> op.next == Attempts(Run(EMPTY, ops), id) + 1)
  {
    Snoc(ops, op);
  }

  // Backoff.

  const DEFAULT_MAX_ATTEMPTS := 5
  const DEFAULT_LEASE := 60_000_000_000
  const BACKOFF_BASE := 30_000_000_000
  const DEFAULT_LIMIT := 50

  function Clamp(attempt: int): int {
    if attempt < 1 then 1 else if attempt > DEFAULT_MAX_ATTEMPTS then DEFAULT_MAX_ATTEMPTS else attempt
  }

  /** A fifth of the base; the product in floating point is exact for these bases. */
  function JitterSpan(base: int): int { if base <= 0 then 0 else base / 5 }

  predicate Drawable(attempt: int, draw: int) { 0 <= draw < JitterSpan(Clamp(attempt) * BACKOFF_BASE) }

  /** The wait after a failure; `draw` is the random part. */
  function DefaultBackoff(attempt: int, draw: int): int
    requires Drawable(attempt, draw)
  {
    Clamp(attempt) * BACKOFF_BASE + draw
  }

  /** The delay is one that can be drawn for the attempt. */
  ghost predicate Drawn(op: Op)
    requires op.Record?
  {
    exists draw :: Drawable(op.next, draw) && op.delay == DefaultBackoff(op.next, draw)
  }

  ghost predicate DrawnDelays(ops: seq<Op>) { forall k :: 0 <= k < |ops| && ops[k].Record? ==> Drawn(ops[k]) }

  /** A later attempt waits longer whatever is drawn, if and only if the earlier is before the fifth and the
      later beyond the first. */
  lemma BackoffGrows(a: int, b: int)
    ensures (forall x, y :: Drawable(a, x) && Drawable(b, y) ==> DefaultBackoff(a, x) < DefaultBackoff(b, y)) <==>
            a < b && a < 5 && b > 1
  {
    if Clamp(a) >= Clamp(b) {
      assert Drawable(a, 0) && Drawable(b, 0);
      assert DefaultBackoff(a, 0) >= DefaultBackoff(b, 0);
    }
  }

  // The store and its dispatcher.

  class Store {
    var rows: map<nat, Row>
    var nextId: nat
    ghost var log: seq<Op>

    ghost function Model(): Table
      reads this
    {
      Table(rows, nextId)
    }

    /** The table is what the transactions committed so far make of it. */
    ghost predicate Valid()
      reads this
    {
      Model() == Run(EMPTY, log)
    }

    constructor ()
      ensures Valid() && log == []
    {
      rows, nextId, log := map[], 1, [];
    }

    method OutboxEnqueue(eventId: string, eventType: string, target: string, created: int) returns (id: Option<nat>)
      requires Valid()
      modifies this
      ensures Valid()
      ensures id.None? <==> eventId == "" || eventType == ""
      ensures id.None? ==> log == old(log) && Model() == old(Model())
      ensures id.Some? ==> id.value == old(nextId) && log == old(log) + [Enqueue(target, created)]
      ensures id.Some? ==> rows == old(rows)[id.value := Row(target, created, Pending, 0, None, None, None)]
    {
      if eventId == "" || eventType == "" {
        return None;
      }
      Snoc(log, Enqueue(target, created));
      id := Some(nextId);
      rows, nextId := rows[nextId := Row(target, created, Pending, 0, None, None, None)], nextId + 1;
      log := log + [Enqueue(target, created)];
    }

    /** The conditional update: it takes the row only if the row is still due. */
    method Claim(id: nat, now: int, lease: int) returns (claimed: bool)
      requires Valid()
      modifies this
      ensures Valid() && log == old(log) + [Op.Claim(id, now, lease)]
      ensures claimed <==> Claims(old(Model()), id, Op.Claim(id, now, lease))
      ensures claimed ==> rows == old(rows)[id := old(rows)[id].(status := Sending, lease := Some(now + lease))]
      ensures !claimed ==> rows == old(rows)
    {
      ghost var op := Op.Claim(id, now, lease);
      Snoc(log, op);
      claimed := id in rows && Due(rows[id], now);
      if claimed {
        rows := rows[id := rows[id].(status := Sending, lease := Some(now + lease))];
      }
      assert rows == Updated(old(rows), op);
      log := log + [op];
    }

    /** The outcome of a send; nothing happens to a row no longer being sent. */
    method UpdateOutcome(id: nat, next: nat, maxAttempts: int, delay: int, result: SendResult, now: int)
      returns (found: bool)
      requires Valid()
      modifies this
      ensures Valid() && found == (id in old(rows))
      ensures log == old(log) + [Record(id, next, maxAttempts, delay, result, now)]
      ensures !found || old(rows)[id].status != Sending ==> rows == old(rows)
      ensures found && old(rows)[id].status == Sending ==>
                && rows.Keys == old(rows).Keys && (forall x :: x in rows && x != id ==> rows[x] == old(rows)[x])
                && rows[id].status == (if result == Delivered then Sent
                                       else if result == Refused(true) && next < maxAttempts then Retrying else Failed)
                && rows[id].nextAttempt == (if rows[id].status == Retrying then Some(now + delay) else None)
                && rows[id].attempts == if result == Delivered then old(rows)[id].attempts else next
    {
      ghost var op := Record(id, next, maxAttempts, delay, result, now);
      Snoc(log, op);
      found := id in rows;
      if found && rows[id].status == Sending {
        var row := rows[id].(lease := None);
        if result == Delivered {
          row := row.(status := Sent, nextAttempt := None);
        } else {
          row := row.(attempts := next);
          if !result.retryable || next >= maxAttempts {
            row := row.(status := Failed, nextAttempt := None, stopped := Some(now));
          } else {
            row := row.(status := Retrying, nextAttempt := Some(now + delay));
          }
        }
        rows := rows[id := row];
      }
      assert rows == Updated(old(rows), op);
      log := log + [op];
    }

    method DiscardOutboxForTarget(target: string, now: int) returns (affected: nat)
      requires Valid()
      modifies this
      ensures Valid() && log == old(log) + [DiscardTarget(target, now)]
      ensures rows.Keys == old(rows).Keys
      ensures forall id :: id in rows ==>
                if old(rows)[id].target == target && old(rows)[id].status in {Pending, Sending, Retrying}
                then rows[id].status == Discarded && rows[id].stopped == Some(now) else rows[id] == old(rows)[id]
      ensures affected == |set id | id in old(rows) && old(rows)[id].target == target &&
                                    old(rows)[id].status in {Pending, Sending, Retrying}|
    {
      ghost var op := DiscardTarget(target, now);
      Snoc(log, op);
      var hit := set id | id in rows && rows[id].target == target && rows[id].status in {Pending, Sending, Retrying};
      assert hit == set id | id in rows && Hits(rows[id], id, op);
      rows := map id | id in rows ::
        if id in hit then rows[id].(status := Discarded, nextAttempt := None, lease := None, stopped := Some(now))
        else rows[id];
      affected := |hit|;
      assert rows == Updated(old(rows), op);
      log := log + [op];
    }
  }

  /** A row as a dispatcher read it. */
  datatype Entry = Entry(id: nat, attempts: nat)

  class OutboxDispatcher {
    const store: Store
    const maxAttempts: int
    const lease: int

    constructor (store: Store, maxAttempts: int, lease: int)
      ensures this.store == store && this.maxAttempts > 0 && this.lease > 0
      ensures this.maxAttempts == (if maxAttempts <= 0 then DEFAULT_MAX_ATTEMPTS else maxAttempts)
      ensures this.lease == if lease <= 0 then DEFAULT_LEASE else lease
    {
      this.store := store;
      this.maxAttempts := if maxAttempts <= 0 then DEFAULT_MAX_ATTEMPTS else maxAttempts;
      this.lease := if lease <= 0 then DEFAULT_LEASE else lease;
    }

    /** The row created first; rows created at once go by number. */
    predicate Earlier(a: nat, b: nat)
      requires a in store.rows && b in store.rows
      reads store
    {
      store.rows[a].created < store.rows[b].created || (store.rows[a].created == store.rows[b].created && a < b)
    }

    method Earliest(ids: set<nat>) returns (id: nat)
      requires ids != {} && ids <= store.rows.Keys
      ensures id in ids && forall x :: x in ids && x != id ==> Earlier(id, x)
    {
      id :| id in ids;
      var left := ids - {id};
      while left != {}
        invariant left <= ids && id in ids && id !in left
        invariant forall x :: x in ids && x !in left && x != id ==> Earlier(id, x)
        decreases |left|
      {
        var other :| other in left;
        if Earlier(other, id) {
          id := other;
        }
        left := left - {other};
      }
    }

    ghost predicate Reads(entries: seq<Entry>, now: int)
      reads store
    {
      && (forall e :: e in entries ==>
            e.id in store.rows && Due(store.rows[e.id], now) && e.attempts == store.rows[e.id].attempts)
      && (forall i, j :: 0 <= i < j < |entries| ==> Earlier(entries[i].id, entries[j].id))
    }

    ghost predicate Listed(entries: seq<Entry>, id: nat) { exists e :: e in entries && e.id == id }

    /** No due row is missing, or the batch is full of earlier ones. */
    ghost predicate Complete(entries: seq<Entry>, limit: nat, now: int)
      reads store
    {
      forall id :: id in store.rows && Due(store.rows[id], now) && !Listed(entries, id) ==>
        |entries| == limit && forall e :: e in entries ==> e.id in store.rows && Earlier(e.id, id)
    }

    /** Reads the first `limit` due rows in the order of their creation, all of them if they fit. */
    method DueEntries(limit: nat, now: int) returns (entries: seq<Entry>)
      ensures |entries| <= limit && Reads(entries, now) && Complete(entries, limit, now)
    {
      var left := set id | id in store.rows && Due(store.rows[id], now);
      entries := [];
      while left != {} && |entries| < limit
        invariant |entries| <= limit && Reads(entries, now) && left <= store.rows.Keys
        invariant forall id :: id in left ==> Due(store.rows[id], now)
        invariant forall id, e :: id in left && e in entries ==> Earlier(e.id, id)
        invariant forall id :: id in store.rows && Due(store.rows[id], now) && id !in left ==> Listed(entries, id)
        decreases |left|
      {
        var id := Earliest(left);
        var e := Entry(id, store.rows[id].attempts);
        var longer := entries + [e];
        assert e in longer;
        forall x | Listed(entries, x)
          ensures Listed(longer, x)
        {
          var f :| f in entries && f.id == x;
          assert f in longer;
        }
        forall x | x in left && x != id
          ensures forall f :: f in longer ==> Earlier(f.id, x)
        {}
        left := left - {id};
        entries := longer;
      }
    }

    /** So far only this dispatcher has recorded outcomes, never from a stale copy, with delays it drew. */
    ghost predicate Alone()
      reads store
    {
      maxAttempts > 0 && store.Valid() && EveryFresh(store.log) && SameBound(store.log, maxAttempts) &&
      DrawnDelays(store.log)
    }

    /** Whatever other parts of the server do meanwhile: queue notifications and discard those of
        a target. No other dispatcher runs. */
    method Others()
      requires Alone()
      modifies store
      ensures Alone() && KeepsAttempts(old(store.Model()), store.Model(), None) && old(store.log) <= store.log
    {
      var steps: nat := *;
      while steps > 0
        invariant Alone() && KeepsAttempts(old(store.Model()), store.Model(), None) && old(store.log) <= store.log
      {
        ghost var before := store.log;
        var discard: bool, target: string, now: int := *, *, *;
        if discard {
          var _ := store.DiscardOutboxForTarget(target, now);
          FreshStep(before, DiscardTarget(target, now));
        } else {
          var _ := store.OutboxEnqueue("id", "type", target, now);
          FreshStep(before, Enqueue(target, now));
        }
        steps := steps - 1;
      }
    }

    method TryClaim(id: nat) returns (claimed: bool)
      requires Alone()
      modifies store
      ensures Alone() && KeepsAttempts(old(store.Model()), store.Model(), None)
      ensures exists now :: store.log == old(store.log) + [Claim(id, now, lease)] &&
                            (claimed <==> Claims(old(store.Model()), id, Claim(id, now, lease)))
    {
      var now: int := *;
      FreshStep(store.log, Claim(id, now, lease));
      claimed := store.Claim(id, now, lease);
    }

    method RecordOutcome(entry: Entry, result: SendResult) returns (found: bool)
      requires Alone() && entry.attempts == Attempts(store.Model(), entry.id)
      modifies store
      ensures Alone() && KeepsAttempts(old(store.Model()), store.Model(), Some(entry.id))
      ensures found == (entry.id in old(store.rows))
      ensures exists op :: store.log == old(store.log) + [op] && Records(op, entry, result)
    {
      var next := entry.attempts + 1;
      assert Drawable(next, 0);
      var draw: int :| Drawable(next, draw);
      var now: int := *;
      var delay := DefaultBackoff(next, draw);
      FreshStep(store.log, Record(entry.id, next, maxAttempts, delay, result, now));
      found := store.UpdateOutcome(entry.id, next, maxAttempts, delay, result, now);
    }

    /** The outcome of a send, recorded with one more attempt than was read and a delay drawn for it. */
    ghost predicate Records(op: Op, entry: Entry, result: SendResult) {
      op.Record? && op.id == entry.id && op.next == entry.attempts + 1 && op.result == result &&
      op.maxAttempts == maxAttempts && Drawn(op)
    }

    /** In the later part of the log the row was claimed, and if that succeeded its outcome recorded. */
    ghost predicate Handled(before: nat, log: seq<Op>, entry: Entry, result: SendResult) {
      exists i :: before <= i < |log| && log[i].Claim? && log[i].id == entry.id && log[i].lease == lease &&
                  (Claims(Run(EMPTY, log[..i]), entry.id, log[i]) ==>
                     exists j :: i < j < |log| && Records(log[j], entry, result))
    }

    lemma HandledStays(earlier: nat, before: nat, log: seq<Op>, more: seq<Op>, entry: Entry, result: SendResult)
      requires Handled(before, log, entry, result) && earlier <= before && log <= more
      ensures Handled(earlier, more, entry, result)
    {
      var i :| before <= i < |log| && log[i].Claim? && log[i].id == entry.id && log[i].lease == lease &&
               (Claims(Run(EMPTY, log[..i]), entry.id, log[i]) ==>
                  exists j :: i < j < |log| && Records(log[j], entry, result));
      assert more[..i] == log[..i] && more[i] == log[i];
      if Claims(Run(EMPTY, log[..i]), entry.id, log[i]) {
        var j :| i < j < |log| && Records(log[j], entry, result);
        assert more[j] == log[j];
      }
    }

    /** Claims the row, sends it, records the outcome; either transaction may fail. */
    method Deliver(entry: Entry, result: SendResult, fault: Fault) returns (failed: bool)
      requires Alone() && entry.id in store.rows && entry.attempts == Attempts(store.Model(), entry.id)
      modifies store
      ensures Alone() && KeepsAttempts(old(store.Model()), store.Model(), Some(entry.id)) && old(store.log) <= store.log
      ensures (fault.ClaimFails? ==> failed) && (failed ==> !fault.NoFault?)
      ensures !failed ==> Handled(|old(store.log)|, store.log, entry, result)
    {
      if fault.ClaimFails? {
        return true;
      }
      ghost var start := store.log;
      var claimed := TryClaim(entry.id);
      assert store.log[..|start|] == start;
      if !claimed {
        return false;
      }
      Others();
      if fault.RecordFails? {
        return true;
      }
      ghost var before := store.log;
      var found := RecordOutcome(entry, result);
      assert Records(store.log[|before|], entry, result) && store.log[..|start|] == start;
      return !found;
    }

    /** One round over the rows due. Unless a transaction fails, every row of the batch is claimed, and what
        became of it recorded. Alone on the table, a dispatcher never writes from a stale copy, so every
        row is given up in time. */
    method DispatchCommitted(limit: int, now: int, results: nat -> SendResult, faults: nat -> Fault)
      returns (processed: nat, failed: bool, ghost entries: seq<Entry>)
      requires Alone()
      modifies store
      ensures Alone() && old(store.log) <= store.log
      ensures old(Reads(entries, now)) && old(Complete(entries, BatchLimit(limit), now))
      ensures processed <= |entries| <= BatchLimit(limit)
      ensures failed <==> processed < |entries|
      ensures failed ==> !faults(processed).NoFault?
      ensures forall k :: 0 <= k < processed ==> Handled(|old(store.log)|, store.log, entries[k], results(k))
      ensures forall id: nat :: Failures(id, store.log) <= maxAttempts
    {
      hide Claims, Attempts, Handled, Complete, Reads, Alone;
      var batch := DueEntries(BatchLimit(limit), now);
      entries := batch;
      ReadsAttempts(batch, now);
      processed, failed := 0, false;
      ghost var start := |store.log|;
      while processed < |batch|
        invariant processed <= |batch| && Alone() && old(store.log) <= store.log
        invariant forall k :: processed <= k < |batch| ==>
                    batch[k].id in store.rows && batch[k].attempts == Attempts(store.Model(), batch[k].id)
        invariant forall k :: 0 <= k < processed ==> Handled(start, store.log, batch[k], results(k))
      {
        ghost var before := store.log;
        Others();
        ghost var from := |store.log|;
        failed := Deliver(batch[processed], results(processed), faults(processed));
        forall k | 0 <= k < processed ensures Handled(start, store.log, batch[k], results(k)) {
          HandledStays(start, start, before, store.log, batch[k], results(k));
        }
        if failed {
          break;
        }
        HandledStays(start, from, store.log, store.log, batch[processed], results(processed));
        processed := processed + 1;
      }
      AloneGivesUp();
    }

    lemma AloneGivesUp()
      requires Alone()
      ensures forall id: nat :: Failures(id, store.log) <= maxAttempts
    {
      forall id: nat
        ensures Failures(id, store.log) <= maxAttempts
      {
        GivesUpInTime(id, store.log, maxAttempts);
      }
    }

    lemma ReadsAttempts(entries: seq<Entry>, now: int)
      requires Reads(entries, now)
      ensures forall k :: 0 <= k < |entries| ==>
                entries[k].id in store.rows && entries[k].attempts == Attempts(store.Model(), entries[k].id)
      ensures forall i, j :: 0 <= i < j < |entries| ==> entries[i].id != entries[j].id
    {}
  }

  /** Which transaction of a delivery fails. */
  datatype Fault = NoFault | ClaimFails | RecordFails

  function BatchLimit(limit: int): nat { if limit <= 0 then DEFAULT_LIMIT else limit }

  ghost predicate EveryFresh(ops: seq<Op>) { forall id: nat :: AllFresh(id, ops) }

  lemma FreshStep(ops: seq<Op>, op: Op)
    requires EveryFresh(ops)
    requires op.Record? ==> op.next == Attempts(Run(EMPTY, ops), op.id) + 1
    ensures EveryFresh(ops + [op])
    ensures forall id: nat :: Attempts(Run(EMPTY, ops + [op]), id) ==
                              if Fails(Run(EMPTY, ops), id, op) then op.next else Attempts(Run(EMPTY, ops), id)
  {
    RunSound(ops);
    forall id: nat
      ensures AllFresh(id, ops + [op])
      ensures Attempts(Run(EMPTY, ops + [op]), id) ==
              if Fails(Run(EMPTY, ops), id, op) then op.next else Attempts(Run(EMPTY, ops), id)
    {
      AddOp(id, ops, op);
      AttemptsStep(Run(EMPTY, ops), id, op);
    }
  }

  /** Only the row being delivered may count another attempt; no row goes. */
  ghost predicate KeepsAttempts(before: Table, after: Table, but: Option<nat>) {
    && (forall id: nat :: but != Some(id) ==> Attempts(after, id) == Attempts(before, id))
    && before.rows.Keys <= after.rows.Keys
  }
}
