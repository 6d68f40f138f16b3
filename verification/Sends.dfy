/** How often a row is sent: every successful claim is followed by a send. */
module Sends {
  import opened Wrappers
  import opened Subsequences
  import opened Outbox
  import opened Dispatchers

  predicate Sending(s: System, id: nat) { id in s.table.rows && s.table.rows[id].status.Sending? }

  /** A dispatcher gets the row and sends it. */
  predicate SendsBy(s: System, id: nat, step: Step) {
    step.Try? && step.id == id && OpOf(s, step).Some? && Claims(s.table, id, OpOf(s, step).value)
  }

  predicate DeliversBy(s: System, id: nat, step: Step) {
    step.Report? && step.id == id && step.result.Delivered? && OpOf(s, step).Some? && Sending(s, id)
  }

  predicate WithdrawsBy(s: System, id: nat, step: Step) {
    step.Drop? && Sending(s, id) && s.table.rows[id].target == step.target
  }

  /** Of a row: the sends, those of them on a row still being sent, whose lease had run out, and how
      sends ended. */
  datatype Tally = Tally(sent: nat, retaken: nat, failed: nat, delivered: nat, withdrawn: nat)

  function Bit(b: bool): nat { if b then 1 else 0 }

  function Tallied(id: nat, steps: seq<Step>): Tally
    decreases |steps|
  {
    if steps == [] then Tally(0, 0, 0, 0, 0)
    else
      var t, s, step := Tallied(id, Init(steps)), SystemRun(Init(steps)), Last(steps);
      Tally(t.sent + Bit(SendsBy(s, id, step)),
            t.retaken + Bit(SendsBy(s, id, step) && Sending(s, id)),
            t.failed + Bit(FailsBy(s, id, step)),
            t.delivered + Bit(DeliversBy(s, id, step)),
            t.withdrawn + Bit(WithdrawsBy(s, id, step)))
  }

  /** How the row ended, if it did: a delivery and a withdrawal are final. */
  predicate Ended(s: System, id: nat, t: Tally) {
    && t.delivered <= 1 && t.withdrawn <= 1
    && (t.delivered == 1 ==> id in s.table.rows && s.table.rows[id].status.Sent?)
    && (t.withdrawn == 1 ==> id in s.table.rows && s.table.rows[id].status.Discarded?)
  }

  /** Every send has its failure or its delivery recorded, or was withdrawn, or is under way, or its
      outcome never reached the row and the row was sent again. */
  lemma {:induction false} SendsConserved(id: nat, steps: seq<Step>)
    ensures var t, s := Tallied(id, steps), SystemRun(steps);
            && t.sent == t.failed + t.delivered + t.withdrawn + Bit(Sending(s, id)) + t.retaken
            && t.failed == Recordings(id, steps) && Ended(s, id, t)
    decreases |steps|
  {
    if steps != [] {
      SendsConserved(id, Init(steps));
      SystemSound(Init(steps));
      SendStep(SystemRun(Init(steps)), id, Last(steps));
    }
  }

  lemma SendStep(s: System, id: nat, step: Step)
    requires Sound(s.table)
    ensures Bit(Sending(After(s, step), id)) + Bit(FailsBy(s, id, step)) + Bit(DeliversBy(s, id, step)) +
            Bit(WithdrawsBy(s, id, step)) + Bit(SendsBy(s, id, step) && Sending(s, id))
         == Bit(Sending(s, id)) + Bit(SendsBy(s, id, step))
    ensures DeliversBy(s, id, step) ==> id in After(s, step).table.rows && After(s, step).table.rows[id].status.Sent?
    ensures WithdrawsBy(s, id, step) ==>
              id in After(s, step).table.rows && After(s, step).table.rows[id].status.Discarded?
    ensures id in s.table.rows && Terminal(s.table.rows[id].status) ==>
              id in After(s, step).table.rows && After(s, step).table.rows[id] == s.table.rows[id]
  {}

  /** With `k` dispatchers a row is sent at most so often, and once more for every time its lease runs
      out before an outcome is recorded and it is taken again. */
  lemma SendsAreBounded(id: nat, steps: seq<Step>, k: nat, max: nat)
    requires max >= 1 && Fleet(steps, k, max)
    ensures Tallied(id, steps).sent <= Paths(k, max) + Tallied(id, steps).retaken
  {
    SendsConserved(id, steps);
    FailuresAreBounded(id, steps, k, max);
  }

  // The bound is reached.

  /** The row is due at time `now`, its counter at `v`. */
  predicate Waits(s: System, v: nat, now: int) {
    1 in s.table.rows && s.table.rows[1].attempts == v && Due(s.table.rows[1], now)
  }

  /** From `steps` to `all` every send of the row has failed, and the failure was recorded. */
  predicate AllFail(steps: seq<Step>, all: seq<Step>) {
    Tallied(1, all).sent - Tallied(1, steps).sent == Recordings(1, all) - Recordings(1, steps)
  }

  lemma AddSent(steps: seq<Step>, step: Step)
    ensures Tallied(1, steps + [step]).sent == Tallied(1, steps).sent + Bit(SendsBy(SystemRun(steps), 1, step))
  {
    Snoc(steps, step);
  }

  /** Dispatchers from `i` up to `j` have read the row at count `c` and not yet tried it. */
  predicate Ready(s: System, i: nat, j: nat, c: nat) {
    forall who: nat :: i <= who < j ==> CopyOf(s, who, 1) == Some(Copy(c, false))
  }

  ghost predicate SameFrom(s: System, u: System, j: nat) {
    forall who: nat :: who >= j ==> CopyOf(u, who, 1) == CopyOf(s, who, 1)
  }

  function Retry(v: nat): int
    requires 1 <= v
  {
    assert Drawable(v, 0);
    DefaultBackoff(v, 0)
  }

  /** All dispatchers below `j` read the row. */
  lemma {:induction false} AllRead(steps: seq<Step>, j: nat, k: nat, v: nat, max: nat, now: int)
    returns (all: seq<Step>)
    requires j <= k && Fleet(steps, k, max) && Waits(SystemRun(steps), v, now)
    ensures Fleet(all, k, max) && Recordings(1, all) == Recordings(1, steps) && AllFail(steps, all)
    ensures Waits(SystemRun(all), v, now)
    ensures Ready(SystemRun(all), 0, j, v) && SameFrom(SystemRun(steps), SystemRun(all), j)
    decreases j
  {
    all := steps;
    if j > 0 {
      var before := AllRead(steps, j - 1, k, v, max, now);
      AddStep(1, before, Read(j - 1, now, {1}));
      AddSent(before, Read(j - 1, now, {1}));
      all := before + [Read(j - 1, now, {1})];
      var s, u := SystemRun(before), SystemRun(all);
      forall who: nat | who < j
        ensures CopyOf(u, who, 1) == Some(Copy(v, false))
      {
        if who < j - 1 { assert CopyOf(s, who, 1) == Some(Copy(v, false)); }
      }
    }
  }

  /** One dispatcher claims the row, fails, and sets the counter to one more than it had read. */
  lemma Fail(steps: seq<Step>, who: nat, k: nat, c: nat, v: nat, max: nat, now: int) returns (all: seq<Step>)
    requires who < k && c < max && Fleet(steps, k, max) && Waits(SystemRun(steps), v, now)
    requires CopyOf(SystemRun(steps), who, 1) == Some(Copy(c, false))
    ensures Fleet(all, k, max) && Recordings(1, all) == Recordings(1, steps) + 1 && AllFail(steps, all)
    ensures c + 1 < max ==> Waits(SystemRun(all), c + 1, now + Retry(c + 1))
    ensures forall other: nat :: other != who ==> CopyOf(SystemRun(all), other, 1) == CopyOf(SystemRun(steps), other, 1)
  {
    var claim := Try(who, 1, now, DEFAULT_LEASE);
    var report := Report(who, 1, max, Retry(c + 1), Refused(true), now);
    AddStep(1, steps, claim);
    AddSent(steps, claim);
    AddStep(1, steps + [claim], report);
    AddSent(steps + [claim], report);
    all := steps + [claim] + [report];
  }

  /** Dispatchers below `j` run the counter from `v` up to one below the limit: all read, then each
      in turn fails from its old copy, and those done by then run it up again before the next. */
  lemma {:induction false} Climb(steps: seq<Step>, j: nat, k: nat, v: nat, max: nat, now: int)
    returns (all: seq<Step>, later: int)
    requires 1 <= j <= k && v < max && Fleet(steps, k, max) && Waits(SystemRun(steps), v, now)
    ensures Fleet(all, k, max) && Waits(SystemRun(all), max - 1, later) && AllFail(steps, all)
    ensures Recordings(1, all) == Recordings(1, steps) + Paths(j, max - v) - 1
    ensures SameFrom(SystemRun(steps), SystemRun(all), j)
    decreases max - v, 1, 0
  {
    if v == max - 1 {
      return steps, now;
    }
    var ready := AllRead(steps, j, k, v, max, now);
    all, later := UseUp(ready, 0, j, k, v, v, max, now);
  }

  lemma {:induction false} UseUp(steps: seq<Step>, i: nat, j: nat, k: nat, c: nat, v: nat, max: nat, now: int)
    returns (all: seq<Step>, later: int)
    requires i <= j <= k && c + 1 < max && Fleet(steps, k, max) && Waits(SystemRun(steps), v, now)
    requires Ready(SystemRun(steps), i, j, c) && (i == j ==> v == max - 1)
    ensures Fleet(all, k, max) && Waits(SystemRun(all), max - 1, later) && AllFail(steps, all)
    ensures Recordings(1, all) == Recordings(1, steps) + Paths(j, max - c) - Paths(i, max - c)
    ensures SameFrom(SystemRun(steps), SystemRun(all), j)
    decreases max - c, 0, j - i
  {
    hide CopyOf, Waits, Fleet, Recordings, SystemRun;
    if i == j {
      return steps, now;
    }
    var failed := Fail(steps, i, k, c, v, max, now);
    var climbed, resumed := Climb(failed, i + 1, k, c + 1, max, now + Retry(c + 1));
    all, later := UseUp(climbed, i + 1, j, k, c, max - 1, max, resumed);
  }

  /** A dispatcher that never gets to record an outcome: it reads, claims, and is gone until the lease
      has run out. */
  lemma {:induction false} Lapses(lapses: nat, k: nat, max: nat) returns (steps: seq<Step>, now: int)
    requires k >= 1
    ensures Fleet(steps, k, max) && Waits(SystemRun(steps), 0, now)
    ensures Tallied(1, steps).sent == lapses && Recordings(1, steps) == 0
    decreases lapses
  {
    if lapses == 0 {
      AddStep(1, [], Queue("t", 0));
      AddSent([], Queue("t", 0));
      return [] + [Queue("t", 0)], 0;
    }
    var before, time := Lapses(lapses - 1, k, max);
    steps := AllRead(before, 1, k, 0, max, time);
    var claim := Try(0, 1, time, DEFAULT_LEASE);
    AddStep(1, steps, claim);
    AddSent(steps, claim);
    steps, now := steps + [claim], time + DEFAULT_LEASE;
  }

  /** For every number of dispatchers and of lapses there is a run that sends the row as often as the
      bound allows. */
  lemma BoundIsReached(k: nat, max: nat, lapses: nat) returns (steps: seq<Step>)
    requires k >= 1 && max >= 1
    ensures Fleet(steps, k, max) && Recordings(1, steps) == Paths(k, max)
    ensures Tallied(1, steps).sent == Paths(k, max) + lapses && Tallied(1, steps).retaken == lapses
  {
    var now;
    steps, now := Lapses(lapses, k, max);
    steps, now := Climb(steps, k, k, 0, max, now);
    steps := AllRead(steps, 1, k, max - 1, max, now);
    steps := Fail(steps, 0, k, max - 1, max - 1, max, now);
    SendsConserved(1, steps);
    FailuresAreBounded(1, steps, k, max);
    GivenUp(steps, k, max);
  }

  /** Once as many failures are recorded as can be, no send is under way, delivered or withdrawn. */
  lemma GivenUp(steps: seq<Step>, k: nat, max: nat)
    requires max >= 1 && Fleet(steps, k, max) && Recordings(1, steps) == Paths(k, max)
    ensures Tallied(1, steps).sent == Recordings(1, steps) + Tallied(1, steps).retaken
  {
    SendsConserved(1, steps);
    FailuresAreBounded(1, steps, k, max);
  }

  /** The bound on failures bounds the sends if and only if the row is never taken again unrecorded. */
  lemma FailureBoundHolds(k: nat, max: nat, lapses: nat)
    requires k >= 1 && max >= 1
    ensures (forall steps: seq<Step> :: Fleet(steps, k, max) && Tallied(1, steps).retaken <= lapses ==>
                                          Tallied(1, steps).sent <= Paths(k, max)) <==> lapses == 0
  {
    if lapses == 0 {
      forall steps: seq<Step> | Fleet(steps, k, max) && Tallied(1, steps).retaken == 0
        ensures Tallied(1, steps).sent <= Paths(k, max)
      {
        SendsAreBounded(1, steps, k, max);
      }
    } else {
      var steps := BoundIsReached(k, max, lapses);
    }
  }

  /** One dispatcher alone may send a row any number of times without a failure recorded. */
  lemma SendsWithoutRecord(n: nat, max: nat) returns (steps: seq<Step>)
    ensures Fleet(steps, 1, max) && Tallied(1, steps).sent == n && Recordings(1, steps) == 0
  {
    var now;
    steps, now := Lapses(n, 1, max);
  }

  /** A row is taken again unrecorded only when the lease of the claim before has run out: not before
      that time on the clock of whoever takes it. */
  lemma RetakenAfterLease(s: System, id: nat, step: Step)
    requires Sound(s.table) && SendsBy(s, id, step) && Sending(s, id)
    ensures s.table.rows[id].lease.Some? && step.now >= s.table.rows[id].lease.value
  {}

  /** With one dispatcher the bound is the limit itself; two may need fifteen tries to reach five. */
  lemma SmallFleets(max: nat)
    requires max >= 1
    ensures Paths(1, max) == max && Paths(2, DEFAULT_MAX_ATTEMPTS) == 15
  {
    if max > 1 { SmallFleets(max - 1); }
    assert Paths(2, 2) == 3 && Paths(2, 3) == 6 && Paths(2, 4) == 10;
  }
}
