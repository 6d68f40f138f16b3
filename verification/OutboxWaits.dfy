/** How long a row of the outbox waits: for its retry, and for a lease to run out. */
module OutboxWaits {
  import opened Wrappers
  import opened Subsequences
  import opened Outbox

  /** No transaction of the run reaches the row. */
  predicate Unreached(t: Table, id: nat, ops: seq<Op>)
    decreases |ops|
  {
    ops != [] ==>
      && Unreached(t, id, Init(ops))
      && (id in Run(t, Init(ops)).rows ==> !Hits(Run(t, Init(ops)).rows[id], id, Last(ops)))
  }

  lemma {:induction false} UnreachedStays(t: Table, id: nat, ops: seq<Op>)
    requires Sound(t) && id in t.rows && Unreached(t, id, ops)
    ensures Sound(Run(t, ops)) && id in Run(t, ops).rows && Run(t, ops).rows[id] == t.rows[id]
    decreases |ops|
  {
    if ops != [] {
      UnreachedStays(t, id, Init(ops));
      SoundStep(Run(t, Init(ops)), Last(ops));
    }
  }

  lemma SoundStep(t: Table, op: Op)
    requires Sound(t)
    ensures Sound(Next(t, op))
  {}

  /** The outcome of a send, recorded on a row being sent: it failed and is to be tried again. */
  predicate Retries(t: Table, id: nat, op: Op) {
    Records(t, id, op) && op.result == Refused(true) && op.next < op.maxAttempts
  }

  /** The row is not claimed before `until`. */
  predicate Waits(r: Row, until: int) {
    || r.status.Discarded?
    || (r.status.Retrying? && r.nextAttempt.Some? && r.nextAttempt.value >= until)
    || (r.status.Sending? && r.lease.Some? && r.lease.value >= until)
  }

  lemma WaitsStep(t: Table, id: nat, until: int, op: Op)
    requires Sound(t) && id in t.rows && Waits(t.rows[id], until)
    requires (op.Claim? ==> op.lease > 0) && !Records(t, id, op)
    ensures Sound(Next(t, op)) && id in Next(t, op).rows && Waits(Next(t, op).rows[id], until)
  {}

  lemma {:induction false} WaitsOn(t: Table, id: nat, until: int, ops: seq<Op>)
    requires Sound(t) && id in t.rows && Waits(t.rows[id], until) && PositiveLeases(ops) && NoOutcome(t, id, ops)
    ensures Sound(Run(t, ops)) && id in Run(t, ops).rows && Waits(Run(t, ops).rows[id], until)
    decreases |ops|
  {
    if ops != [] {
      WaitsOn(t, id, until, Init(ops));
      WaitsStep(Run(t, Init(ops)), id, until, Last(ops));
    }
  }

  /** After a failure that is to be retried, and as long as no other outcome of the row is recorded, no
      claim succeeds before the delay is over, on the clock of whoever claims. */
  lemma RetryWaits(t: Table, id: nat, failure: Op, between: seq<Op>, claim: Op)
    requires Sound(t) && Retries(t, id, failure) && PositiveLeases(between)
    requires NoOutcome(Next(t, failure), id, between)
    requires Claims(Run(Next(t, failure), between), id, claim)
    ensures claim.now >= failure.now + failure.delay
  {
    WaitsOn(Next(t, failure), id, failure.now + failure.delay, between);
  }

  /** Left alone, the row can be claimed exactly when the delay is over. */
  lemma RetryComesDue(t: Table, id: nat, failure: Op, between: seq<Op>, now: int, lease: int)
    requires Sound(t) && Retries(t, id, failure) && Unreached(Next(t, failure), id, between)
    ensures Claims(Run(Next(t, failure), between), id, Claim(id, now, lease)) <==> now >= failure.now + failure.delay
  {
    UnreachedStays(Next(t, failure), id, between);
  }

  /** Left alone, a row that was claimed can be claimed again exactly when the lease has run out. */
  lemma LeaseRunsOut(t: Table, id: nat, first: Op, between: seq<Op>, now: int, lease: int)
    requires Sound(t) && Claims(t, id, first) && Unreached(Next(t, first), id, between)
    ensures Claims(Run(Next(t, first), between), id, Claim(id, now, lease)) <==> now >= first.now + first.lease
  {
    UnreachedStays(Next(t, first), id, between);
  }

  /** A row that was just queued can be claimed at once. */
  lemma QueuedIsDue(t: Table, target: string, created: int, between: seq<Op>, now: int, lease: int)
    requires Sound(t) && Unreached(Next(t, Enqueue(target, created)), t.nextId, between)
    ensures Claims(Run(Next(t, Enqueue(target, created)), between), t.nextId, Claim(t.nextId, now, lease))
  {
    UnreachedStays(Next(t, Enqueue(target, created)), t.nextId, between);
  }

  ghost predicate CanBeClaimed(t: Table, id: nat) {
    exists ops: seq<Op>, claim: Op :: Claims(Run(t, ops), id, claim)
  }

  /** The outcome recorded decides whether the row can ever be sent again: if and only if the send failed,
      the failure is one to retry, and the limit has not been reached. */
  lemma SentAgainIff(t: Table, id: nat, op: Op)
    requires Sound(t) && Records(t, id, op)
    ensures CanBeClaimed(Next(t, op), id) <==> op.result == Refused(true) && op.next < op.maxAttempts
  {
    var u := Next(t, op);
    if Retries(t, id, op) {
      RetryComesDue(t, id, op, [], op.now + op.delay, 1);
      assert Claims(Run(u, []), id, Claim(id, op.now + op.delay, 1));
    } else {
      forall ops: seq<Op>, claim: Op ensures !Claims(Run(u, ops), id, claim) {
        TerminalAbsorbs(u, ops, id);
      }
    }
  }

  /** Once the notifications of a target are discarded, none of those queued until then is sent again. */
  lemma DiscardedStays(t: Table, target: string, now: int, id: nat)
    requires Sound(t) && id in t.rows && t.rows[id].target == target
    ensures !CanBeClaimed(Next(t, DiscardTarget(target, now)), id)
  {
    var u := Next(t, DiscardTarget(target, now));
    forall ops: seq<Op>, claim: Op ensures !Claims(Run(u, ops), id, claim) {
      TerminalAbsorbs(u, ops, id);
    }
  }

  /** Waits grow with the failures: after the n-th failure on record, and as long as no other outcome is
      recorded, the row is not claimed again for n times 30 seconds, and can be within n times 36, up to
      the default limit of attempts. */
  lemma WaitsGrow(id: nat, before: seq<Op>, failure: Op, between: seq<Op>, claim: Op)
    requires AllFresh(id, before + [failure]) && DrawnDelays(before + [failure])
    requires Retries(Run(EMPTY, before), id, failure) && failure.maxAttempts <= DEFAULT_MAX_ATTEMPTS
    requires PositiveLeases(between) && NoOutcome(Run(EMPTY, before + [failure]), id, between)
    requires Claims(Run(Run(EMPTY, before + [failure]), between), id, claim)
    ensures claim.now - failure.now >= Failures(id, before + [failure]) * BACKOFF_BASE
    ensures Claims(Run(EMPTY, before + [failure]), id,
                   Claim(id, failure.now + Failures(id, before + [failure]) * (BACKOFF_BASE + BACKOFF_BASE / 5), 1))
  {
    RunSound(before);
    AddOp(id, before, failure);
    CountsExactlyWhenFresh(id, before);
    RetryWaits(Run(EMPTY, before), id, failure, between, claim);
    var n, last := Failures(id, before + [failure]), |before|;
    assert failure.next == n && (before + [failure])[last] == failure && Drawn(failure);
    var draw :| Drawable(failure.next, draw) && failure.delay == DefaultBackoff(failure.next, draw);
    RetryComesDue(Run(EMPTY, before), id, failure, [], failure.now + n * (BACKOFF_BASE + BACKOFF_BASE / 5), 1);
  }
}
