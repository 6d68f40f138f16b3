/** The client engine: applying configurations while the engine may be shut down at any moment. */
module ClientSwap {
  import opened Wrappers
  import opened Subsequences

  datatype EngineState = Idle | Running | Stopped

  /** What the engine lock guards. A generation is named by its place among those published. */
  datatype Shared = Shared(state: EngineState, revisions: seq<nat>, lastGood: nat, applying: bool, stopRaised: set<nat>)

  function Active(s: Shared): nat
    requires s.revisions != []
  {
    |s.revisions| - 1
  }

  function ActiveRevision(s: Shared): nat { if s.revisions == [] then 0 else Last(s.revisions) }

  /** Just after a successful start, with generation 0 at revision 0. */
  const STARTED := Shared(Running, [0], 0, false, {})

  // The critical sections, as values.

  function Published(s: Shared, revision: nat): Shared {
    if s.state.Running? then s.(revisions := s.revisions + [revision], lastGood := revision) else s
  }

  function StopRaised(s: Shared, gen: nat): Shared { s.(stopRaised := s.stopRaised + {gen}) }

  class Engine {
    var state: EngineState
    var revisions: seq<nat>
    var lastGood: nat
    var applying: bool
    var stopRaised: set<nat>

    ghost function Model(): Shared
      reads this
    {
      Shared(state, revisions, lastGood, applying, stopRaised)
    }

    constructor ()
      ensures Model() == Shared(Idle, [], 0, false, {})
    {
      state, revisions, lastGood, applying, stopRaised := Idle, [], 0, false, {};
    }

    method CommitRunning(revision: nat)
      requires state.Idle? && revisions == []
      modifies this
      ensures Model() == old(Model()).(state := Running, revisions := [revision], lastGood := revision)
    {
      state, revisions, lastGood := Running, revisions + [revision], revision;
    }

    /** One application at a time. */
    method ClaimApply() returns (claimed: bool, previous: nat)
      modifies this`applying
      ensures claimed <==> !old(applying)
      ensures applying && previous == ActiveRevision(old(Model()))
    {
      claimed := !applying;
      applying := true;
      previous := if revisions == [] then 0 else revisions[|revisions| - 1];
    }

    /** The switch and the check that the engine still runs are one step. */
    method PublishGeneration(revision: nat) returns (previous: Option<nat>, err: bool)
      modifies this
      ensures Model() == Published(old(Model()), revision)
      ensures err <==> !old(state).Running?
      ensures previous == if err || old(revisions) == [] then None else Some(Active(old(Model())))
    {
      if state != Running {
        return None, true;
      }
      previous := if revisions == [] then None else Some(|revisions| - 1);
      revisions, lastGood := revisions + [revision], revision;
      err := false;
    }

    method MarkStopped() returns (active: Option<nat>)
      modifies this`state
      ensures Model() == old(Model()).(state := Stopped)
      ensures active == if revisions == [] then None else Some(Active(Model()))
    {
      state := Stopped;
      active := if revisions == [] then None else Some(|revisions| - 1);
    }

    method Stop(gen: nat)
      modifies this`stopRaised
      ensures Model() == StopRaised(old(Model()), gen)
    {
      stopRaised := stopRaised + {gen};
    }

    method ReleaseApply()
      modifies this`applying
      ensures Model() == old(Model()).(applying := false)
    {
      applying := false;
    }
  }

  // Interleavings.

  /** Where the one application in flight stands; `base` is the generation active when it began. */
  datatype Applier =
    | Nobody
    | Claimed(revision: nat, base: nat)
    | Preparing(revision: nat, base: nat)
    | Checked(revision: nat, base: nat)
    | Switched(revision: nat, previous: nat)
    | Draining(revision: nat)

  datatype Stopper = NotCalled | Marked(active: nat) | Waiting

  datatype Outcome =
    | Applied(revision: nat)
    | Repeated(revision: nat)
    | Failed(before: nat, after: nat, goodBefore: nat, goodAfter: nat)

  datatype System = System(shared: Shared, applier: Applier, stopper: Stopper, outcomes: seq<Outcome>)

  /** One step of a caller of Apply or of Shutdown, between two takings of the engine lock. The
      flags say what the steps outside the model decide: a bad configuration, a cancelled context,
      a failing check. */
  datatype Step =
    | BeginApply(revision: nat)
    | ReadState(bad: bool)
    | Prepare(fails: bool)
    | Check(fails: bool)
    | Publish(cancelled: bool)
    | StopOld
    | EndApply
    | MarkStopped
    | StopActive

  function Fail(y: System): System
    requires y.applier.Claimed? || y.applier.Preparing? || y.applier.Checked?
    requires y.applier.base < |y.shared.revisions|
  {
    y.(applier := Nobody, shared := y.shared.(applying := false),
       outcomes := y.outcomes + [Failed(y.applier.base, Active(y.shared), y.shared.revisions[y.applier.base],
                                        y.shared.lastGood)])
  }

  predicate Enabled(y: System, t: Step) {
    match t
    case BeginApply(_) => true
    case ReadState(_) => y.applier.Claimed?
    case Prepare(_) => y.applier.Preparing?
    case Check(_) => y.applier.Preparing?
    case Publish(_) => y.applier.Checked?
    case StopOld => y.applier.Switched?
    case EndApply => y.applier.Draining?
    case MarkStopped => y.stopper.NotCalled?
    case StopActive => y.stopper.Marked?
  }

  function Next(y: System, t: Step): System
    requires Sound(y)
  {
    var s := y.shared;
    if !Enabled(y, t) then y else
    match t
    case BeginApply(revision) =>
      if revision == 0 || s.applying then y
      else y.(shared := s.(applying := true), applier := Claimed(revision, Active(s)))
    case ReadState(bad) =>
      var wanted := y.applier.revision;
      if bad || !s.state.Running? then Fail(y)
      else if wanted == ActiveRevision(s)
      then y.(applier := Nobody, shared := s.(applying := false), outcomes := y.outcomes + [Repeated(wanted)])
      else if wanted < ActiveRevision(s) then Fail(y)
      else y.(applier := Preparing(wanted, y.applier.base))
    case Prepare(fails) => if fails then Fail(y) else y
    case Check(fails) =>
      if fails || !s.state.Running? then Fail(y) else y.(applier := Checked(y.applier.revision, y.applier.base))
    case Publish(cancelled) =>
      if cancelled || !s.state.Running? then Fail(y)
      else y.(shared := Published(s, y.applier.revision), applier := Switched(y.applier.revision, Active(s)))
    case StopOld => y.(shared := StopRaised(s, y.applier.previous), applier := Draining(y.applier.revision))
    case EndApply =>
      y.(shared := s.(applying := false), applier := Nobody, outcomes := y.outcomes + [Applied(y.applier.revision)])
    case MarkStopped => y.(shared := s.(state := Stopped), stopper := Marked(Active(s)))
    case StopActive => y.(shared := StopRaised(s, y.stopper.active), stopper := Waiting)
  }

  predicate Increasing(revisions: seq<nat>) {
    forall i, j :: 0 <= i < j < |revisions| ==> revisions[i] < revisions[j]
  }

  /** What holds in every reachable state. */
  predicate Sound(y: System) {
    var s, active := y.shared, |y.shared.revisions| - 1;
    && s.revisions != [] && Increasing(s.revisions) && s.lastGood == Last(s.revisions)
    && (s.applying <==> !y.applier.Nobody?)
    && (y.stopper.NotCalled? <==> s.state.Running?)
    && (y.stopper.Marked? ==> y.stopper.active == active)
    && (y.applier.Claimed? || y.applier.Preparing? || y.applier.Checked? ==> y.applier.base == active)
    && (y.applier.Preparing? || y.applier.Checked? ==> y.applier.revision > Last(s.revisions))
    && (y.applier.Switched? ==> active > 0 && y.applier.previous == active - 1)
    && (forall g :: 0 <= g < active ==> (g in s.stopRaised <==> !(y.applier.Switched? && y.applier.previous == g)))
    && (active in s.stopRaised <==> y.stopper.Waiting?)
    && (forall g :: g in s.stopRaised ==> g <= active)
    && (forall o :: o in y.outcomes && o.Failed? ==> o.before == o.after && o.goodBefore == o.goodAfter)
  }

  const INITIAL := System(STARTED, Nobody, NotCalled, [])

  lemma NextSound(y: System, t: Step)
    requires Sound(y)
    ensures Sound(Next(y, t))
  {
    match t
    case BeginApply(_) => BeforeSwitchSound(y, t);
    case ReadState(_) => BeforeSwitchSound(y, t);
    case Prepare(_) => BeforeSwitchSound(y, t);
    case Check(_) => BeforeSwitchSound(y, t);
    case Publish(_) => SwitchSound(y, t);
    case StopOld => SwitchSound(y, t);
    case EndApply => SwitchSound(y, t);
    case MarkStopped => ShutdownSound(y, t);
    case StopActive => ShutdownSound(y, t);
  }

  lemma BeforeSwitchSound(y: System, t: Step)
    requires Sound(y) && (t.BeginApply? || t.ReadState? || t.Prepare? || t.Check?)
    ensures Sound(Next(y, t))
  {}

  lemma SwitchSound(y: System, t: Step)
    requires Sound(y) && (t.Publish? || t.StopOld? || t.EndApply?)
    ensures Sound(Next(y, t))
  {}

  lemma ShutdownSound(y: System, t: Step)
    requires Sound(y) && (t.MarkStopped? || t.StopActive?)
    ensures Sound(Next(y, t))
  {}

  function Run(y: System, steps: seq<Step>): (r: System)
    requires Sound(y)
    ensures Sound(r)
    decreases |steps|
  {
    if steps == [] then y
    else
      NextSound(Run(y, Init(steps)), Last(steps));
      Next(Run(y, Init(steps)), Last(steps))
  }

  /** Nothing is published once the engine is marked stopped. */
  lemma {:induction false} NoPublishAfterStop(y: System, steps: seq<Step>)
    requires Sound(y) && y.shared.state.Stopped?
    ensures Run(y, steps).shared.state.Stopped? && Run(y, steps).shared.revisions == y.shared.revisions
    ensures Run(y, steps).shared.lastGood == y.shared.lastGood
    decreases |steps|
  {
    hide Sound;
    if steps != [] {
      NoPublishAfterStop(y, Init(steps));
      StoppedStep(Run(y, Init(steps)), Last(steps));
    }
  }

  lemma StoppedStep(y: System, t: Step)
    requires Sound(y) && y.shared.state.Stopped?
    ensures var s := Next(y, t).shared;
            s.state.Stopped? && s.revisions == y.shared.revisions && s.lastGood == y.shared.lastGood
  {}

  /** The active revision never goes back, whoever does what in which order; every publication has a
      larger revision than all before. */
  lemma {:induction false} RevisionsOnlyGrow(y: System, steps: seq<Step>)
    requires Sound(y)
    ensures y.shared.revisions <= Run(y, steps).shared.revisions && Increasing(Run(y, steps).shared.revisions)
    ensures ActiveRevision(y.shared) <= ActiveRevision(Run(y, steps).shared)
    decreases |steps|
  {
    if steps == [] {
      assert Run(y, steps) == y;
    } else {
      RevisionsOnlyGrow(y, Init(steps));
      var before, after := Run(y, Init(steps)), Run(y, steps);
      assert Sound(after) && after == Next(before, Last(steps));
      hide Run;
      GrowStep(before, Last(steps));
    }
  }

  lemma GrowStep(y: System, t: Step)
    requires Sound(y)
    ensures y.shared.revisions <= Next(y, t).shared.revisions
    ensures ActiveRevision(y.shared) <= ActiveRevision(Next(y, t).shared)
  {
    NextSound(y, t);
  }

  /** A failed application found on its return the active and the last good generation it had found
      on its claim; the last good revision is the active one at all times. */
  lemma FailureChangesNothing(steps: seq<Step>, o: Outcome)
    requires o in Run(INITIAL, steps).outcomes && o.Failed?
    ensures o.before == o.after && o.goodBefore == o.goodAfter
    ensures Run(INITIAL, steps).shared.lastGood == ActiveRevision(Run(INITIAL, steps).shared)
  {
    assert Sound(Run(INITIAL, steps));
  }

  /** Once the application in flight and the shutdown are through, every generation ever published
      has been told to stop. */
  lemma EveryGenerationStops(steps: seq<Step>)
    requires Run(INITIAL, steps).applier.Nobody? && Run(INITIAL, steps).stopper.Waiting?
    ensures forall g :: 0 <= g < |Run(INITIAL, steps).shared.revisions| ==> g in Run(INITIAL, steps).shared.stopRaised
  {
    AllRaised(Run(INITIAL, steps));
  }

  lemma AllRaised(y: System)
    requires Sound(y) && y.applier.Nobody? && y.stopper.Waiting?
    ensures forall g :: 0 <= g < |y.shared.revisions| ==> g in y.shared.stopRaised
  {}

  /** And none is told twice. */
  lemma StopsOnce(steps: seq<Step>)
    ensures var y := Run(INITIAL, steps);
            && (y.applier.Switched? ==> y.applier.previous !in y.shared.stopRaised)
            && (y.stopper.Marked? ==> y.stopper.active !in y.shared.stopRaised)
  {
    assert Sound(Run(INITIAL, steps));
  }

  // What becomes of an application.

  /** The steps of a shutdown, as far as it gets. */
  predicate ShutsDown(steps: seq<Step>) {
    forall k :: 0 <= k < |steps| ==> steps[k].MarkStopped? || steps[k].StopActive?
  }

  predicate Marks(steps: seq<Step>) { exists k :: 0 <= k < |steps| && steps[k].MarkStopped? }

  lemma MarksLast(steps: seq<Step>)
    requires steps != []
    ensures Marks(steps) <==> Marks(Init(steps)) || Last(steps).MarkStopped?
  {
    if Last(steps).MarkStopped? { assert steps[|steps| - 1].MarkStopped?; }
    if k :| 0 <= k < |Init(steps)| && Init(steps)[k].MarkStopped? { assert steps[k].MarkStopped?; }
  }

  /** A shutdown beside an application does nothing to it; the engine runs on until it is marked. */
  predicate Beside(y: System, z: System) {
    && z.applier == y.applier && z.outcomes == y.outcomes && z.shared.revisions == y.shared.revisions
    && y.shared.stopRaised <= z.shared.stopRaised
  }

  lemma {:induction false} ShutdownBeside(y: System, steps: seq<Step>)
    requires Sound(y) && ShutsDown(steps)
    ensures Beside(y, Run(y, steps))
    ensures Run(y, steps).shared.state.Running? <==> y.shared.state.Running? && !Marks(steps)
    decreases |steps|
  {
    if steps != [] {
      hide Sound, Marks;
      MarksLast(steps);
      ShutdownBeside(y, Init(steps));
      ShutdownStep(Run(y, Init(steps)), Last(steps));
    } else {
      assert !Marks(steps);
    }
  }

  lemma ShutdownStep(y: System, t: Step)
    requires Sound(y) && (t.MarkStopped? || t.StopActive?)
    ensures Beside(y, Next(y, t))
    ensures Next(y, t).shared.state.Running? <==> y.shared.state.Running? && !t.MarkStopped?
  {}

  /** A step of the application, and what a shutdown does after it. */
  function Then(y: System, step: Step, meanwhile: seq<Step>): (z: System)
    requires Sound(y)
    ensures Sound(z)
  {
    NextSound(y, step);
    Run(Next(y, step), meanwhile)
  }

  /** What the outside decides about an application. */
  datatype Faults = Faults(bad: bool, unprepared: bool, unhealthy: bool, cancelled: bool)

  /** One application up to the moment before its switch, with a shutdown at any moment. */
  function UntilSwitch(y: System, revision: nat, faults: Faults, meanwhile: seq<seq<Step>>): (z: System)
    requires Sound(y) && |meanwhile| == 6
    ensures Sound(z)
  {
    var claimed := Then(y, BeginApply(revision), meanwhile[0]);
    var read := Then(claimed, ReadState(faults.bad), meanwhile[1]);
    var prepared := Then(read, Prepare(faults.unprepared), meanwhile[2]);
    Then(prepared, Check(faults.unhealthy), meanwhile[3])
  }

  function Application(y: System, revision: nat, faults: Faults, meanwhile: seq<seq<Step>>): (z: System)
    requires Sound(y) && |meanwhile| == 6
    ensures Sound(z)
  {
    var switched := Then(UntilSwitch(y, revision, faults, meanwhile), Publish(faults.cancelled), meanwhile[4]);
    var stopped := Then(switched, StopOld, meanwhile[5]);
    NextSound(stopped, EndApply);
    Next(stopped, EndApply)
  }

  /** Nothing in the way until the switch. */
  predicate Unhindered(faults: Faults, meanwhile: seq<seq<Step>>)
    requires |meanwhile| == 6
  {
    && !faults.bad && !faults.unprepared && !faults.unhealthy
    && !Marks(meanwhile[0]) && !Marks(meanwhile[1]) && !Marks(meanwhile[2])
  }

  lemma ThenBeside(y: System, step: Step, meanwhile: seq<Step>)
    requires Sound(y) && ShutsDown(meanwhile)
    ensures Beside(Next(y, step), Then(y, step, meanwhile))
    ensures Then(y, step, meanwhile).shared.state.Running? <==> Next(y, step).shared.state.Running? && !Marks(meanwhile)
  {
    hide Beside, Marks, Next, Sound;
    NextSound(y, step);
    ShutdownBeside(Next(y, step), meanwhile);
  }

  lemma SwitchIsReached(y: System, revision: nat, faults: Faults, meanwhile: seq<seq<Step>>)
    requires Sound(y) && y.applier.Nobody? && y.shared.state.Running? && revision > ActiveRevision(y.shared)
    requires |meanwhile| == 6 && forall k :: 0 <= k < 6 ==> ShutsDown(meanwhile[k])
    ensures var z := UntilSwitch(y, revision, faults, meanwhile);
            && z.shared.revisions == y.shared.revisions
            && (if Unhindered(faults, meanwhile)
                then z.applier == Checked(revision, Active(y.shared)) && z.outcomes == y.outcomes
                     && (z.shared.state.Running? <==> !Marks(meanwhile[3]))
                else z.applier.Nobody? && |z.outcomes| == |y.outcomes| + 1 && Last(z.outcomes).Failed?)
  {
    hide Then, Marks, ShutsDown;
    var claimed := Then(y, BeginApply(revision), meanwhile[0]);
    ThenBeside(y, BeginApply(revision), meanwhile[0]);
    var read := Then(claimed, ReadState(faults.bad), meanwhile[1]);
    ThenBeside(claimed, ReadState(faults.bad), meanwhile[1]);
    var prepared := Then(read, Prepare(faults.unprepared), meanwhile[2]);
    ThenBeside(read, Prepare(faults.unprepared), meanwhile[2]);
    ThenBeside(prepared, Check(faults.unhealthy), meanwhile[3]);
  }

  /** On a running engine an application of a later revision takes effect if and only if nothing of it
      fails and no shutdown is marked before the switch. Then its revision is the active one, and the
      generation before has been told to stop; otherwise it has failed, and nothing has changed. */
  lemma AppliesUnlessStopped(y: System, revision: nat, faults: Faults, meanwhile: seq<seq<Step>>)
    requires Sound(y) && y.applier.Nobody? && y.shared.state.Running? && revision > ActiveRevision(y.shared)
    requires |meanwhile| == 6 && forall k :: 0 <= k < 6 ==> ShutsDown(meanwhile[k])
    ensures var z := Application(y, revision, faults, meanwhile);
            && z.applier.Nobody? && |z.outcomes| == |y.outcomes| + 1
            && if Unhindered(faults, meanwhile) && !faults.cancelled && !Marks(meanwhile[3])
               then z.shared.revisions == y.shared.revisions + [revision] && Last(z.outcomes) == Applied(revision)
                    && Active(y.shared) in z.shared.stopRaised
               else z.shared.revisions == y.shared.revisions && Last(z.outcomes).Failed?
  {
    hide Then, Marks, ShutsDown, UntilSwitch, Unhindered;
    SwitchIsReached(y, revision, faults, meanwhile);
    var ready := UntilSwitch(y, revision, faults, meanwhile);
    SwitchEnds(ready, faults.cancelled, meanwhile[4], meanwhile[5]);
  }

  lemma SwitchEnds(y: System, cancelled: bool, during: seq<Step>, later: seq<Step>)
    requires Sound(y) && (y.applier.Checked? || y.applier.Nobody?) && ShutsDown(during) && ShutsDown(later)
    ensures var switched := Then(y, Publish(cancelled), during);
            var stopped := Then(switched, StopOld, later);
            var z := Next(stopped, EndApply);
            && z.applier.Nobody?
            && if y.applier.Nobody? then z.outcomes == y.outcomes && z.shared.revisions == y.shared.revisions
               else if !cancelled && y.shared.state.Running?
               then z.shared.revisions == y.shared.revisions + [y.applier.revision]
                    && Active(y.shared) in z.shared.stopRaised
                    && z.outcomes == y.outcomes + [Applied(y.applier.revision)]
               else z.shared.revisions == y.shared.revisions
                    && |z.outcomes| == |y.outcomes| + 1 && Last(z.outcomes).Failed?
  {
    hide Then, Marks, ShutsDown;
    ThenBeside(y, Publish(cancelled), during);
    ThenBeside(Then(y, Publish(cancelled), during), StopOld, later);
  }

  /** The same revision again is a success without a switch; an earlier one fails. */
  lemma NoOlderRevision(y: System, revision: nat)
    requires Sound(y) && y.applier.Nobody? && y.shared.state.Running? && 0 < revision <= ActiveRevision(y.shared)
    ensures var z := Run(y, [BeginApply(revision)] + [ReadState(false)]);
            && z.applier.Nobody? && z.shared == y.shared && |z.outcomes| == |y.outcomes| + 1
            && if revision == ActiveRevision(y.shared) then Last(z.outcomes) == Repeated(revision)
               else Last(z.outcomes).Failed?
  {
    var begin: seq<Step> := [BeginApply(revision)];
    Snoc(begin, ReadState(false));
    assert Init(begin) == [] && Last(begin) == BeginApply(revision);
    assert Run(y, begin) == Next(y, BeginApply(revision));
  }

  // The idle work connections of one generation.

  type Conn = nat

  /** `received` counts the bytes a connection has delivered; the sweep of `stop` works on a copy of
      the table, one connection at a time. */
  datatype Pool = Pool(stopping: bool, conns: set<Conn>, closed: set<Conn>, received: map<Conn, nat>,
                       swept: bool, left: set<Conn>)

  datatype Move =
    | TrackIfActive(conn: Conn)
    | Untrack(conn: Conn)
    | Receive(conn: Conn, bytes: nat)
    | RaiseStop
    | CopyTable
    | CloseIfIdle(conn: Conn)

  function Received(p: Pool, c: Conn): nat { if c in p.received then p.received[c] else 0 }

  function Moved(p: Pool, m: Move): Pool {
    match m
    case TrackIfActive(c) => if p.stopping then p.(closed := p.closed + {c}) else p.(conns := p.conns + {c})
    case Untrack(c) => p.(conns := p.conns - {c})
    case Receive(c, n) => p.(received := p.received[c := Received(p, c) + n])
    case RaiseStop => p.(stopping := true)
    case CopyTable => if p.stopping && !p.swept then p.(swept := true, left := p.conns) else p
    case CloseIfIdle(c) =>
      if c !in p.left then p
      else p.(left := p.left - {c}, closed := if Received(p, c) == 0 then p.closed + {c} else p.closed)
  }

  function MovedAll(p: Pool, moves: seq<Move>): Pool
    decreases |moves|
  {
    if moves == [] then p else Moved(MovedAll(p, Init(moves)), Last(moves))
  }

  predicate Swept(p: Pool) {
    && (p.swept ==> p.stopping)
    && (p.swept ==> forall c :: c in p.conns ==> c in p.left || c in p.closed || Received(p, c) > 0)
  }

  const EMPTY := Pool(false, {}, {}, map[], false, {})

  lemma {:induction false} SweepHolds(moves: seq<Move>)
    ensures Swept(MovedAll(EMPTY, moves))
    decreases |moves|
  {
    if moves != [] { SweepHolds(Init(moves)); }
  }

  /** After the sweep of a stopped generation no idle connection is left in its table, and none ever
      enters: what is tracked is closed or has carried a visitor's data. */
  lemma {:induction false} NoIdleAfterSweep(moves: seq<Move>, more: seq<Move>)
    requires MovedAll(EMPTY, moves).swept && MovedAll(EMPTY, moves).left == {}
    ensures var p := MovedAll(MovedAll(EMPTY, moves), more);
            && p.conns <= MovedAll(EMPTY, moves).conns
            && forall c :: c in p.conns ==> c in p.closed || Received(p, c) > 0
    decreases |more|
  {
    SweepHolds(moves);
    StaysSwept(MovedAll(EMPTY, moves), more);
  }

  lemma {:induction false} StaysSwept(p: Pool, more: seq<Move>)
    requires Swept(p) && p.swept && p.left == {}
    ensures var q := MovedAll(p, more); Swept(q) && q.swept && q.left == {} && q.conns <= p.conns
    decreases |more|
  {
    if more != [] { StaysSwept(p, Init(more)); }
  }
}
