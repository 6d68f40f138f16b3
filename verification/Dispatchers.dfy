/** Several dispatchers on one outbox: what they read, and what they do with it later. */
module Dispatchers {
  import opened Wrappers
  import opened Subsequences
  import opened Outbox

  /** What a dispatcher remembers of a row: the counter it read, and whether it has since claimed
      the row. */
  datatype Copy = Copy(attempts: nat, claimed: bool)

  /** The table and what each dispatcher holds of it. */
  datatype System = System(table: Table, held: map<nat, map<nat, Copy>>)

  /** A dispatcher reads a batch of due rows, tries to claim each row it read, sends, and reports.
      A new batch replaces the one before. Copies are used in any order, or never. */
  datatype Step =
    | Read(who: nat, now: int, ids: set<nat>)
    | Try(who: nat, id: nat, now: int, lease: int)
    | Report(who: nat, id: nat, maxAttempts: int, delay: int, result: SendResult, now: int)
    | Queue(target: string, created: int)
    | Drop(target: string, now: int)

  function CopyOf(s: System, who: nat, id: nat): Option<Copy> {
    if who in s.held && id in s.held[who] then Some(s.held[who][id]) else None
  }

  /** The transaction a step commits, if any. A row is claimed only when it was read before, and its
      outcome is reported only by whoever claimed it. */
  function OpOf(s: System, step: Step): Option<Op> {
    match step
    case Read(_, _, _) => None
    case Try(who, id, now, lease) =>
      var copy := CopyOf(s, who, id);
      if copy.Some? && !copy.value.claimed then Some(Claim(id, now, lease)) else None
    case Report(who, id, maxAttempts, delay, result, now) =>
      var copy := CopyOf(s, who, id);
      if copy.Some? && copy.value.claimed
      then Some(Record(id, copy.value.attempts + 1, maxAttempts, delay, result, now)) else None
    case Queue(target, created) => Some(Enqueue(target, created))
    case Drop(target, now) => Some(DiscardTarget(target, now))
  }

  function Batch(t: Table, now: int, ids: set<nat>): map<nat, Copy> {
    map id | id in ids && id in t.rows && Due(t.rows[id], now) :: Copy(t.rows[id].attempts, false)
  }

  function HeldAfter(s: System, step: Step): map<nat, map<nat, Copy>> {
    match step
    case Read(who, now, ids) => s.held[who := Batch(s.table, now, ids)]
    case Try(who, id, now, lease) =>
      if OpOf(s, step).None? then s.held
      else if Claims(s.table, id, OpOf(s, step).value)
      then s.held[who := s.held[who][id := s.held[who][id].(claimed := true)]]
      else s.held[who := s.held[who] - {id}]
    case Report(who, id, _, _, _, _) =>
      if OpOf(s, step).None? then s.held else s.held[who := s.held[who] - {id}]
    case _ => s.held
  }

  function After(s: System, step: Step): System {
    System(match OpOf(s, step) case Some(op) => Next(s.table, op) case None => s.table, HeldAfter(s, step))
  }

  function SystemRun(steps: seq<Step>): System
    decreases |steps|
  {
    if steps == [] then System(EMPTY, map[]) else After(SystemRun(Init(steps)), Last(steps))
  }

  /** The transactions of a run. */
  function Trace(steps: seq<Step>): seq<Op>
    decreases |steps|
  {
    if steps == [] then []
    else Trace(Init(steps)) +
         match OpOf(SystemRun(Init(steps)), Last(steps)) case Some(op) => [op] case None => []
  }

  /** A run of dispatchers is a run of transactions, so all that is known of those holds here. */
  lemma {:induction false} TraceRuns(steps: seq<Step>)
    ensures SystemRun(steps).table == Run(EMPTY, Trace(steps))
    decreases |steps|
  {
    if steps != [] {
      TraceRuns(Init(steps));
      var op := OpOf(SystemRun(Init(steps)), Last(steps));
      if op.Some? {
        Snoc(Trace(Init(steps)), op.value);
      } else {
        assert Trace(steps) == Trace(Init(steps));
      }
    }
  }

  predicate FailsBy(s: System, id: nat, step: Step) {
    step.Report? && step.id == id && OpOf(s, step).Some? && Fails(s.table, id, OpOf(s, step).value)
  }

  /** How many failed sends of a row were recorded. */
  function Recordings(id: nat, steps: seq<Step>): nat
    decreases |steps|
  {
    if steps == [] then 0
    else Recordings(id, Init(steps)) + if FailsBy(SystemRun(Init(steps)), id, Last(steps)) then 1 else 0
  }

  lemma {:induction false} SystemSound(steps: seq<Step>)
    ensures Sound(SystemRun(steps).table)
  {
    TraceRuns(steps);
    RunSound(Trace(steps));
  }

  lemma AddStep(id: nat, steps: seq<Step>, step: Step)
    ensures SystemRun(steps + [step]) == After(SystemRun(steps), step)
    ensures Recordings(id, steps + [step])
         == Recordings(id, steps) + if FailsBy(SystemRun(steps), id, step) then 1 else 0
  {
    Snoc(steps, step);
  }

  lemma CounterStep(s: System, id: nat, step: Step)
    requires Sound(s.table)
    ensures Attempts(After(s, step).table, id)
         == if FailsBy(s, id, step) then CopyOf(s, step.who, id).value.attempts + 1 else Attempts(s.table, id)
  {
    if OpOf(s, step).Some? { AttemptsStep(s.table, id, OpOf(s, step).value); }
  }

  // The counter.

  /** At every moment the counter of the row has counted every recorded failure. */
  predicate CountsEvery(id: nat, steps: seq<Step>)
    decreases |steps|
  {
    && Attempts(SystemRun(steps).table, id) == Recordings(id, steps)
    && (steps != [] ==> CountsEvery(id, Init(steps)))
  }

  /** How many failures of a row were recorded, by anyone, since a dispatcher last read. */
  function Since(who: nat, id: nat, steps: seq<Step>): nat
    decreases |steps|
  {
    if steps == [] || (Last(steps).Read? && Last(steps).who == who) then 0
    else Since(who, id, Init(steps)) + if FailsBy(SystemRun(Init(steps)), id, Last(steps)) then 1 else 0
  }

  /** Nobody records a failure of the row between a dispatcher's reading it and recording its own. */
  predicate NeverOvertaken(id: nat, steps: seq<Step>)
    decreases |steps|
  {
    steps != [] ==>
      && NeverOvertaken(id, Init(steps))
      && (FailsBy(SystemRun(Init(steps)), id, Last(steps)) ==> Since(Last(steps).who, id, Init(steps)) == 0)
  }

  /** A copy of the row falls behind the counter by what has been recorded since it was read. */
  ghost predicate CopiesLag(id: nat, steps: seq<Step>) {
    forall who: nat :: CopyOf(SystemRun(steps), who, id).Some? ==>
      CopyOf(SystemRun(steps), who, id).value.attempts + Since(who, id, steps) == Recordings(id, steps)
  }

  /** The counter of a row is right, all the time, if and only if no dispatcher is overtaken. */
  lemma {:induction false} CountsUnlessOvertaken(id: nat, steps: seq<Step>)
    ensures CountsEvery(id, steps) <==> NeverOvertaken(id, steps)
    ensures CountsEvery(id, steps) ==> CopiesLag(id, steps)
    ensures id !in SystemRun(steps).table.rows ==> Recordings(id, steps) == 0
    decreases |steps|
  {
    if steps != [] {
      var before, step := Init(steps), Last(steps);
      CountsUnlessOvertaken(id, before);
      SystemSound(before);
      CounterStep(SystemRun(before), id, step);
      if CountsEvery(id, steps) { LagStep(id, steps); }
    }
  }

  lemma LagStep(id: nat, steps: seq<Step>)
    requires steps != [] && CopiesLag(id, Init(steps)) && CountsEvery(id, Init(steps))
    ensures CopiesLag(id, steps)
  {
    var s, step := SystemRun(Init(steps)), Last(steps);
    forall who: nat | CopyOf(SystemRun(steps), who, id).Some?
      ensures CopyOf(SystemRun(steps), who, id).value.attempts + Since(who, id, steps) == Recordings(id, steps)
    {
      if step.Read? && step.who == who {
        assert CopyOf(SystemRun(steps), who, id).value.attempts == Attempts(s.table, id);
      } else {
        assert CopyOf(s, who, id).Some?;
      }
    }
  }

  // How many failures can be recorded.

  /** Only the first `k` dispatchers read, and all give up at the same count. */
  predicate Fleet(steps: seq<Step>, k: nat, maxAttempts: int) {
    && (forall i :: 0 <= i < |steps| && steps[i].Read? ==> steps[i].who < k)
    && (forall i :: 0 <= i < |steps| && steps[i].Report? ==> steps[i].maxAttempts == maxAttempts)
  }

  /** Pascal's triangle: the number of ways to choose `k` of `k + l - 1`. */
  function Paths(k: int, l: nat): (n: nat)
    requires l >= 1
    ensures k >= 0 ==> n >= 1
    ensures l == 1 && k >= 0 ==> n == 1
    decreases l, k
  {
    if k < 0 then 0 else if k == 0 || l == 1 then 1 else Paths(k - 1, l) + Paths(k, l - 1)
  }

  function Factorial(n: nat): (r: nat)
    ensures r >= 1
  {
    if n == 0 then 1 else n * Factorial(n - 1)
  }

  lemma TakeOut(a: nat, k: nat, f: nat, b: nat)
    ensures a * ((k * f) * b) == k * (a * (f * b)) && a * (b * (k * f)) == k * (a * (b * f))
  {}

  lemma AddUp(p: nat, q: nat, f: nat, k: nat, l: nat, all: nat)
    requires p * f == k * all && q * f == l * all
    ensures (p + q) * f == (k + l) * all
  {}

  lemma {:induction false} PathsIsBinomial(k: nat, l: nat)
    requires l >= 1
    ensures Paths(k, l) * (Factorial(k) * Factorial(l - 1)) == Factorial(k + l - 1)
    decreases l, k
  {
    if k > 0 && l > 1 {
      PathsIsBinomial(k - 1, l);
      PathsIsBinomial(k, l - 1);
      var p, q, f, g, all := Paths(k - 1, l), Paths(k, l - 1), Factorial(k), Factorial(l - 1), Factorial(k + l - 2);
      TakeOut(p, k, Factorial(k - 1), g);
      TakeOut(q, l - 1, Factorial(l - 2), f);
      AddUp(p, q, f * g, k, l - 1, all);
    }
  }

  lemma {:induction false} PathsGrow(j: int, k: int, l: nat)
    requires j <= k && l >= 1
    ensures Paths(j, l) <= Paths(k, l)
    decreases k - j
  {
    if j < k && k >= 0 { PathsGrow(j, k - 1, l); }
  }

  /** How many copies are not behind level `h`; a dispatcher without a copy never is. */
  function Up(copies: seq<Option<nat>>, h: nat): (n: nat)
    ensures n <= |copies|
    decreases |copies|
  {
    if copies == [] then 0
    else Up(Init(copies), h) + if Last(copies).Some? && Last(copies).value < h then 0 else 1
  }

  lemma {:induction false} UpChange(copies: seq<Option<nat>>, i: nat, copy: Option<nat>, h: nat)
    requires i < |copies|
    ensures Up(copies[i := copy], h) + (if copies[i].Some? && copies[i].value < h then 0 else 1)
         == Up(copies, h) + if copy.Some? && copy.value < h then 0 else 1
    decreases |copies|
  {
    if i < |copies| - 1 {
      UpChange(Init(copies), i, copy, h);
      assert Init(copies[i := copy]) == Init(copies)[i := copy];
    } else {
      assert Init(copies[i := copy]) == Init(copies);
    }
  }

  lemma {:induction false} UpFalls(copies: seq<Option<nat>>, g: nat, h: nat)
    requires g <= h
    ensures Up(copies, h) <= Up(copies, g)
    decreases |copies|
  {
    if copies != [] { UpFalls(Init(copies), g, h); }
  }

  /** What must have been recorded, at most, for the counter to stand at `v` with these copies out. */
  function Spent(copies: seq<Option<nat>>, v: nat, max: nat): nat
    requires v <= max
  {
    if v == 0 then 0 else Spent(copies, v - 1, max) + Paths(Up(copies, v) - 1, max - v + 1)
  }

  lemma {:induction false} SpentGrows(copies: seq<Option<nat>>, i: nat, copy: Option<nat>, v: nat, max: nat)
    requires i < |copies| && v <= max && (copy.Some? ==> copy.value >= v)
    ensures Spent(copies, v, max) <= Spent(copies[i := copy], v, max)
    decreases v
  {
    if v > 0 {
      SpentGrows(copies, i, copy, v - 1, max);
      UpChange(copies, i, copy, v);
      PathsGrow(Up(copies, v) - 1, Up(copies[i := copy], v) - 1, max - v + 1);
    }
  }

  lemma {:induction false} SpentRises(copies: seq<Option<nat>>, u: nat, v: nat, max: nat)
    requires u <= v <= max
    ensures Spent(copies, u, max) <= Spent(copies, v, max)
    decreases v - u
  {
    if u < v { SpentRises(copies, u, v - 1, max); }
  }

  /** Levels `c + 1` to `v`, with at most `b` copies up at each. */
  lemma {:induction false} SpentAbove(copies: seq<Option<nat>>, c: nat, v: nat, max: nat, b: nat)
    requires c <= v < max && Up(copies, c + 1) <= b
    ensures Spent(copies, v, max) + Paths(b, max - v) <= Spent(copies, c, max) + Paths(b, max - c)
    decreases v
  {
    if c < v {
      SpentAbove(copies, c, v - 1, max, b);
      UpFalls(copies, c + 1, v);
      PathsGrow(Up(copies, v) - 1, b - 1, max - v + 1);
    }
  }

  /** Recording from a copy sets the counter to one more than the copy, and is paid for. */
  lemma SpentByUse(copies: seq<Option<nat>>, i: nat, v: nat, max: nat)
    requires i < |copies| && copies[i].Some? && v < max && copies[i].value < max
    ensures Spent(copies, v, max) + 1 <= Spent(copies[i := None], copies[i].value + 1, max)
  {
    var c, after := copies[i].value, copies[i := None];
    SpentGrows(copies, i, None, c, max);
    UpChange(copies, i, None, c + 1);
    if c < v {
      SpentAbove(copies, c, v, max, Up(copies, c + 1));
    } else {
      SpentRises(copies, v, c, max);
    }
  }

  lemma SpentInAll(copies: seq<Option<nat>>, v: nat, max: nat)
    requires v <= max && max >= 1
    ensures Spent(copies, v, max) <= Paths(|copies|, max)
    ensures v < max ==> Spent(copies, v, max) < Paths(|copies|, max)
  {
    SpentAbove(copies, 0, if v < max then v else max - 1, max, |copies|);
  }

  /** The counters the first `k` dispatchers have read of a row. */
  function Copies(s: System, id: nat, k: nat): seq<Option<nat>> {
    seq(k, who requires 0 <= who < k =>
      match CopyOf(s, who, id) case Some(copy) => Some(copy.attempts) case None => None)
  }

  predicate CounterFits(s: System, id: nat, max: nat) {
    && Attempts(s.table, id) <= max
    && (Attempts(s.table, id) == max && max > 0 ==> s.table.rows[id].status.Failed?)
  }

  ghost predicate CopiesFit(s: System, id: nat, k: nat, max: nat) {
    forall who: nat :: CopyOf(s, who, id).Some? ==>
      who < k && id in s.table.rows && CopyOf(s, who, id).value.attempts < max
  }

  ghost predicate WithinBudget(s: System, id: nat, k: nat, max: nat, recorded: nat) {
    && CounterFits(s, id, max) && CopiesFit(s, id, k, max)
    && recorded <= Spent(Copies(s, id, k), Attempts(s.table, id), max)
  }

  predicate By(step: Step, who: nat) { (step.Read? || step.Try? || step.Report?) && step.who == who }

  lemma CopyStep(s: System, id: nat, step: Step, who: nat)
    requires Sound(s.table)
    ensures var before, after := CopyOf(s, who, id), CopyOf(After(s, step), who, id);
            if !By(step, who) then after == before
            else if step.Read?
            then after.Some? ==> id in s.table.rows && !Terminal(s.table.rows[id].status) &&
                                 after == Some(Copy(Attempts(s.table, id), false))
            else after == before || after.None? || (before.Some? && after == Some(before.value.(claimed := true)))
    ensures FailsBy(s, id, step) && step.who == who ==>
              CopyOf(s, who, id).Some? && CopyOf(After(s, step), who, id).None?
  {}

  lemma LivesOn(s: System, id: nat, step: Step)
    requires Sound(s.table) && id in s.table.rows
    ensures id in After(s, step).table.rows
    ensures Terminal(s.table.rows[id].status) ==> After(s, step).table.rows[id] == s.table.rows[id]
  {}

  lemma CopiesStep(s: System, id: nat, k: nat, max: nat, step: Step)
    requires Sound(s.table) && max >= 1 && CopiesFit(s, id, k, max) && CounterFits(s, id, max) && Fleet([step], k, max)
    ensures CopiesFit(After(s, step), id, k, max)
  {
    assert [step][0] == step;
    forall who: nat | CopyOf(After(s, step), who, id).Some?
      ensures who < k && id in After(s, step).table.rows && CopyOf(After(s, step), who, id).value.attempts < max
    {
      CopyStep(s, id, step, who);
      LivesOn(s, id, step);
    }
  }

  lemma CounterFitsStep(s: System, id: nat, k: nat, max: nat, step: Step)
    requires Sound(s.table) && max >= 1 && CopiesFit(s, id, k, max) && CounterFits(s, id, max) && Fleet([step], k, max)
    ensures CounterFits(After(s, step), id, max)
  {
    assert [step][0] == step;
    CounterStep(s, id, step);
    if id in s.table.rows { LivesOn(s, id, step); }
  }

  lemma SpentStep(s: System, id: nat, k: nat, max: nat, step: Step)
    requires Sound(s.table) && max >= 1 && CopiesFit(s, id, k, max) && CounterFits(s, id, max) && Fleet([step], k, max)
    requires CounterFits(After(s, step), id, max)
    ensures Spent(Copies(After(s, step), id, k), Attempts(After(s, step).table, id), max)
         >= Spent(Copies(s, id, k), Attempts(s.table, id), max) + if FailsBy(s, id, step) then 1 else 0
  {
    hide After, Spent, CopyOf;
    var u, v := After(s, step), Attempts(s.table, id);
    var copies, after := Copies(s, id, k), Copies(u, id, k);
    CounterStep(s, id, step);
    forall who: nat { CopyStep(s, id, step, who); }
    if who: nat :| who < k && By(step, who) && after[who] != copies[who] {
      assert after == copies[who := after[who]];
      if FailsBy(s, id, step) {
        SpentByUse(copies, who, v, max);
      } else {
        SpentGrows(copies, who, after[who], v, max);
      }
    } else {
      assert after == copies;
    }
  }

  lemma BudgetStep(s: System, id: nat, k: nat, max: nat, recorded: nat, step: Step)
    requires Sound(s.table) && max >= 1 && WithinBudget(s, id, k, max, recorded) && Fleet([step], k, max)
    ensures WithinBudget(After(s, step), id, k, max, recorded + if FailsBy(s, id, step) then 1 else 0)
  {
    CopiesStep(s, id, k, max, step);
    CounterFitsStep(s, id, k, max, step);
    SpentStep(s, id, k, max, step);
  }

  lemma {:induction false} BudgetKept(id: nat, steps: seq<Step>, k: nat, max: nat)
    requires max >= 1 && Fleet(steps, k, max)
    ensures WithinBudget(SystemRun(steps), id, k, max, Recordings(id, steps))
    decreases |steps|
  {
    if steps != [] {
      BudgetKept(id, Init(steps), k, max);
      SystemSound(Init(steps));
      assert Fleet([Last(steps)], k, max);
      BudgetStep(SystemRun(Init(steps)), id, k, max, Recordings(id, Init(steps)), Last(steps));
    }
  }

  /** With `k` dispatchers at most so many failures of a row are recorded, whatever they have read and
      when; while the row has not been given up, at least one fewer. */
  lemma FailuresAreBounded(id: nat, steps: seq<Step>, k: nat, max: nat)
    requires max >= 1 && Fleet(steps, k, max)
    ensures Recordings(id, steps) <= Paths(k, max)
    ensures id in SystemRun(steps).table.rows && !SystemRun(steps).table.rows[id].status.Failed? ==>
              Recordings(id, steps) < Paths(k, max)
  {
    BudgetKept(id, steps, k, max);
    SpentInAll(Copies(SystemRun(steps), id, k), Attempts(SystemRun(steps).table, id), max);
  }

  /** While nobody is overtaken, `max` is the bound for any number of dispatchers. */
  lemma GivesUpUnlessOvertaken(id: nat, steps: seq<Step>, k: nat, max: nat)
    requires max >= 1 && Fleet(steps, k, max) && NeverOvertaken(id, steps)
    ensures Recordings(id, steps) <= max
    ensures Recordings(id, steps) == max ==>
              id in SystemRun(steps).table.rows && SystemRun(steps).table.rows[id].status.Failed?
  {
    CountsUnlessOvertaken(id, steps);
    BudgetKept(id, steps, k, max);
  }

  /** One dispatcher alone is not overtaken. */
  lemma {:induction false} LoneIsNotOvertaken(id: nat, steps: seq<Step>, max: nat)
    requires Fleet(steps, 1, max)
    ensures NeverOvertaken(id, steps)
    ensures CopyOf(SystemRun(steps), 0, id).Some? ==> Since(0, id, steps) == 0
    ensures forall who: nat :: who > 0 ==> CopyOf(SystemRun(steps), who, id).None?
    decreases |steps|
  {
    if steps != [] {
      LoneIsNotOvertaken(id, Init(steps), max);
      SystemSound(Init(steps));
      forall who: nat { CopyStep(SystemRun(Init(steps)), id, Last(steps), who); }
    }
  }
}
