/** Stored configuration revisions and the record of what became of them. */
module Revisions {
  import opened Wrappers
  import opened Subsequences

  datatype Revision = Revision(number: nat, content: string)

  datatype Phase = Validate | Prepare | HealthCheck | Publish | Drain

  /** One recorded phase of one application. */
  datatype Row = Row(revision: nat, phase: Phase, succeeded: bool)

  /** The tables, and the state row of the server: what is wanted, what was published last. */
  datatype Db = Db(revisions: seq<Revision>, desired: nat, active: nat, lastGood: nat, results: seq<Row>)

  const EMPTY := Db([], 0, 0, 0, [])

  // The transactions on values.

  function Appended(d: Db, content: string): Db {
    var next := |d.revisions| + 1;
    d.(revisions := d.revisions + [Revision(next, content)], desired := next)
  }

  /** Publishing is the one phase that moves the record of what is active. */
  function Recorded(d: Db, row: Row): Db {
    var d1 := d.(results := d.results + [row]);
    if row.phase.Publish? && row.succeeded then d1.(active := row.revision, lastGood := row.revision) else d1
  }

  /** Each phase is recorded in a transaction of its own, which may fail. */
  function RecordedAll(d: Db, rows: seq<Row>, commits: seq<bool>): Db
    requires |commits| == |rows|
    decreases |rows|
  {
    if rows == [] then d
    else
      var d1 := RecordedAll(d, Init(rows), Init(commits));
      if Last(commits) then Recorded(d1, Last(rows)) else d1
  }

  predicate Published(d: Db, revision: nat) { Row(revision, Publish, true) in d.results }

  /** The check made at start: what is recorded as active was published. */
  predicate RecordVerified(d: Db, revision: nat) { revision == 0 || Published(d, revision) }

  // What the core says.

  datatype CoreStage = CoreValidate | CorePrepare | CoreHealthCheck | CoreApplied | CoreDrained

  /** Success, or failure at a stage if the error names one. */
  datatype CoreResult = Accepted | Rejected(stage: Option<CoreStage>)

  datatype PhaseOutcome = PhaseOutcome(phase: Phase, succeeded: bool)

  function StageOf(p: Phase): CoreStage {
    match p
    case Validate => CoreValidate
    case Prepare => CorePrepare
    case _ => CoreHealthCheck
  }

  const STEPS: seq<Phase> := [Validate, Prepare, HealthCheck]

  /** The phases up to the failing one, or all of them. */
  function Reconstructed(r: CoreResult): seq<PhaseOutcome> {
    var stage := if r.Accepted? then None else if r.stage.None? then Some(CoreValidate) else r.stage;
    if stage == Some(CoreValidate) then [PhaseOutcome(Validate, false)]
    else if stage == Some(CorePrepare) then [PhaseOutcome(Validate, true), PhaseOutcome(Prepare, false)]
    else if stage == Some(CoreHealthCheck) then
      [PhaseOutcome(Validate, true), PhaseOutcome(Prepare, true), PhaseOutcome(HealthCheck, false)]
    else
      [PhaseOutcome(Validate, true), PhaseOutcome(Prepare, true), PhaseOutcome(HealthCheck, true),
       PhaseOutcome(Publish, stage.None?), PhaseOutcome(Drain, true)]
  }

  /** The fixed steps are walked until the failing one. */
  method ReconstructPhases(r: CoreResult) returns (outcomes: seq<PhaseOutcome>)
    ensures outcomes == Reconstructed(r)
  {
    var failure := if r.Accepted? then None else if r.stage.None? then Some(CoreValidate) else r.stage;
    outcomes := [];
    for k := 0 to |STEPS|
      invariant outcomes ==
                [PhaseOutcome(Validate, true), PhaseOutcome(Prepare, true), PhaseOutcome(HealthCheck, true)][..k]
      invariant failure.Some? ==> forall j :: 0 <= j < k ==> failure.value != StageOf(STEPS[j])
    {
      if failure == Some(StageOf(STEPS[k])) {
        outcomes := outcomes + [PhaseOutcome(STEPS[k], false)];
        return;
      }
      outcomes := outcomes + [PhaseOutcome(STEPS[k], true)];
    }
    assert failure.Some? ==> failure.value != StageOf(STEPS[0]) && failure.value != StageOf(STEPS[1]);
    assert failure.Some? ==> failure.value != StageOf(STEPS[2]);
    outcomes := outcomes + [PhaseOutcome(Publish, failure.None?)];
    outcomes := outcomes + [PhaseOutcome(Drain, true)];
  }

  /** The stages before the switch, where the core can fail. */
  predicate BeforeSwitch(r: CoreResult) {
    r.Accepted? || r.stage.None? || r.stage.value in {CoreValidate, CorePrepare, CoreHealthCheck}
  }

  function Failures(outcomes: seq<PhaseOutcome>): nat {
    if outcomes == [] then 0 else Failures(Init(outcomes)) + if Last(outcomes).succeeded then 0 else 1
  }

  /** Publishing is recorded as a success exactly if the core returned no error, and as a failure
      never; a failed application has one failed phase, its last. */
  lemma PublishedIffAccepted(r: CoreResult)
    requires BeforeSwitch(r)
    ensures PhaseOutcome(Publish, true) in Reconstructed(r) <==> r.Accepted?
    ensures PhaseOutcome(Publish, false) !in Reconstructed(r)
    ensures Failures(Reconstructed(r)) == if r.Accepted? then 0 else 1
    ensures r.Rejected? ==> !Last(Reconstructed(r)).succeeded
  {
    var o := Reconstructed(r);
    FailuresOne(o);
  }

  /** The phases recorded are the first of the five, in their order, up to the one the core failed in; an
      error that names no stage counts as a failed validation. */
  lemma PhasesInOrder(r: CoreResult)
    requires BeforeSwitch(r)
    ensures var o := Reconstructed(r);
            && 1 <= |o| <= 5
            && (forall k :: 0 <= k < |o| ==> o[k].phase == [Validate, Prepare, HealthCheck, Publish, Drain][k])
            && (forall k :: 0 <= k < |o| - 1 ==> o[k].succeeded)
            && (r.Accepted? ==> |o| == 5)
            && (r.Rejected? ==> Last(o).phase == match r.stage
                                                 case Some(CorePrepare) => Prepare
                                                 case Some(CoreHealthCheck) => HealthCheck
                                                 case _ => Validate)
  {}

  lemma {:induction false} FailuresOne(o: seq<PhaseOutcome>)
    requires forall k :: 0 <= k < |o| - 1 ==> o[k].succeeded
    ensures Failures(o) == if o != [] && !Last(o).succeeded then 1 else 0
    decreases |o|
  {
    if o != [] { FailuresOne(Init(o)); }
  }

  // The service over any history.

  function RowsOf(revision: nat, outcomes: seq<PhaseOutcome>): seq<Row> {
    seq(|outcomes|, i requires 0 <= i < |outcomes| => Row(revision, outcomes[i].phase, outcomes[i].succeeded))
  }

  /** The server process and its database. `core` is the revision the core has active, `waiting`
      those that callers have read as the latest and not yet got to apply, `inFlight` the one being
      applied. `accepted` is the last revision the core accepted in any process, `history` all of
      them; `noted` says whether the transaction recording the last acceptance committed. */
  datatype System = System(db: Db, core: nat, waiting: set<nat>, inFlight: Option<nat>,
                           accepted: nat, history: set<nat>, noted: bool)

  const INITIAL := System(EMPTY, 0, {}, None, 0, {}, true)

  datatype Step =
    | Append(content: string, commits: bool)
    | Restore(source: nat, commits: bool)
    | Request(revision: nat)
    | Claim(revision: nat)
    | SnapshotFails(commits: bool)
    | Apply(result: CoreResult, committed: seq<bool>)
    | Recover(result: CoreResult, snapshotFails: bool, committed: seq<bool>)
    | Restart

  function Latest(d: Db): nat { |d.revisions| }

  /** The core takes no revision older than the one it has; it fails before the switch only. */
  predicate CoreMay(core: nat, revision: nat, r: CoreResult) {
    (r.Accepted? ==> revision != 0 && revision >= core) && BeforeSwitch(r)
  }

  /** What is recorded at a recovery: the phases, and the outcome as the start-up code sees it. */
  function RecoveryRows(revision: nat, r: CoreResult, snapshotFails: bool): seq<Row> {
    if snapshotFails then [Row(revision, Validate, false), Row(revision, Validate, false)]
    else RowsOf(revision, Reconstructed(r)) +
         [if r.Accepted? then Row(revision, Drain, true) else Row(revision, Validate, false)]
  }

  predicate Enabled(y: System, t: Step) {
    match t
    case Append(_, _) => true
    case Restore(source, _) => 1 <= source <= Latest(y.db)
    case Request(revision) => revision == Latest(y.db) && revision != 0
    case Claim(revision) => revision in y.waiting && y.inFlight.None?
    case SnapshotFails(_) => y.inFlight.Some?
    case Apply(r, commits) =>
      y.inFlight.Some? && CoreMay(y.core, y.inFlight.value, r) && |commits| == |Reconstructed(r)|
    case Recover(r, fails, commits) =>
      && y.inFlight.None? && Latest(y.db) != 0 && RecordVerified(y.db, y.db.active) &&
         RecordVerified(y.db, y.db.lastGood)
      && CoreMay(y.core, Latest(y.db), r) && |commits| == |RecoveryRows(Latest(y.db), r, fails)|
    case Restart => true
  }

  /** Whether the transaction that records the switch commits. */
  predicate Notes(rows: seq<Row>, commits: seq<bool>)
    requires |commits| == |rows|
  {
    exists k :: 0 <= k < |rows| && rows[k].phase.Publish? && rows[k].succeeded && commits[k]
  }

  function CoreTakes(y: System, revision: nat, rows: seq<Row>, commits: seq<bool>): System
    requires |commits| == |rows|
  {
    y.(core := revision, accepted := revision, history := y.history + {revision}, noted := Notes(rows, commits))
  }

  function Next(y: System, t: Step): System {
    if !Enabled(y, t) then y else
    match t
    case Append(content, commits) => if commits then y.(db := Appended(y.db, content)) else y
    case Restore(source, commits) =>
      if commits then y.(db := Appended(y.db, y.db.revisions[source - 1].content)) else y
    case Request(revision) => y.(waiting := y.waiting + {revision})
    case Claim(revision) => y.(waiting := y.waiting - {revision}, inFlight := Some(revision))
    case SnapshotFails(commits) =>
      y.(inFlight := None, db := RecordedAll(y.db, [Row(y.inFlight.value, Validate, false)], [commits]))
    case Apply(r, commits) =>
      var revision := y.inFlight.value;
      var rows := RowsOf(revision, Reconstructed(r));
      var z := y.(inFlight := None, db := RecordedAll(y.db, rows, commits));
      if r.Accepted? then CoreTakes(z, revision, rows, commits) else z
    case Recover(r, fails, commits) =>
      var revision := Latest(y.db);
      var rows := RecoveryRows(revision, r, fails);
      var z := y.(db := RecordedAll(y.db, rows, commits));
      if !fails && r.Accepted? then CoreTakes(z, revision, rows, commits) else z
    case Restart => y.(core := 0, waiting := {}, inFlight := None)
  }

  // What every history keeps.

  predicate Numbered(revisions: seq<Revision>) { forall i :: 0 <= i < |revisions| ==> revisions[i].number == i + 1 }

  predicate DbSound(d: Db) {
    && Numbered(d.revisions) && d.desired == Latest(d) && d.active == d.lastGood <= Latest(d)
    && RecordVerified(d, d.active)
  }

  predicate Sound(y: System) {
    && DbSound(y.db) && y.accepted <= Latest(y.db)
    && (forall p :: p in y.waiting ==> p <= Latest(y.db)) && (y.inFlight.Some? ==> y.inFlight.value <= Latest(y.db))
    && (y.core == y.accepted ||
        (y.core == 0 && (forall p :: p in y.waiting ==> p >= y.accepted) &&
         (y.inFlight.Some? ==> y.inFlight.value >= y.accepted)))
    && (y.noted ==> y.db.active == y.accepted) && y.db.active <= y.accepted
    && (forall row :: row in y.db.results && row.phase.Publish? ==> row.succeeded && row.revision in y.history)
    && (y.accepted != 0 ==> y.accepted in y.history)
  }

  /** Recording phases leaves the revisions alone, and moves the record of the active one exactly if
      a successful publication among them commits. */
  lemma {:induction false} RecordedAllKeeps(d: Db, rows: seq<Row>, commits: seq<bool>, revision: nat)
    requires |commits| == |rows| && forall row :: row in rows ==> row.revision == revision
    ensures var e := RecordedAll(d, rows, commits);
            && e.revisions == d.revisions && e.desired == d.desired
            && (e.active, e.lastGood) == (if Notes(rows, commits) then (revision, revision) else (d.active, d.lastGood))
            && (Notes(rows, commits) ==> Published(e, revision))
            && (forall row :: row in d.results ==> row in e.results)
            && (forall row :: row in e.results ==> row in d.results || row in rows)
    decreases |rows|
  {
    if rows != [] {
      var k := |rows| - 1;
      RecordedAllKeeps(d, Init(rows), Init(commits), revision);
      assert rows[k] in rows;
      NotesMore(rows, commits);
    }
  }

  lemma NotesMore(rows: seq<Row>, commits: seq<bool>)
    requires |commits| == |rows| && rows != []
    ensures Notes(rows, commits) <==>
            Notes(Init(rows), Init(commits)) || (Last(rows).phase.Publish? && Last(rows).succeeded && Last(commits))
  {
    if Notes(Init(rows), Init(commits)) {
      var k :| 0 <= k < |rows| - 1 && Init(rows)[k].phase.Publish? && Init(rows)[k].succeeded && Init(commits)[k];
      assert rows[k].phase.Publish? && rows[k].succeeded && commits[k];
    }
    if Notes(rows, commits) {
      var k :| 0 <= k < |rows| && rows[k].phase.Publish? && rows[k].succeeded && commits[k];
      if k < |rows| - 1 {
        assert Init(rows)[k] == rows[k] && Init(commits)[k];
      }
    }
  }

  /** The rows of one application speak of its revision, and of a publication only if it happened. */
  lemma RowsSpeak(revision: nat, r: CoreResult, rows: seq<Row>)
    requires BeforeSwitch(r)
    requires rows == RowsOf(revision, Reconstructed(r)) || rows == RecoveryRows(revision, r, false)
    ensures forall row :: row in rows ==> row.revision == revision
    ensures forall row :: row in rows && row.phase.Publish? ==> row.succeeded && r.Accepted?
  {
    PublishedIffAccepted(r);
    forall row | row in RowsOf(revision, Reconstructed(r))
      ensures row.revision == revision && (row.phase.Publish? ==> row.succeeded && r.Accepted?)
    {
      var k :| 0 <= k < |Reconstructed(r)| && RowsOf(revision, Reconstructed(r))[k] == row;
      assert Reconstructed(r)[k] in Reconstructed(r);
    }
  }

  /** The database after phases of `revision` have been recorded. */
  lemma RecordSound(d: Db, rows: seq<Row>, commits: seq<bool>, revision: nat)
    requires DbSound(d) && |commits| == |rows| && revision <= Latest(d)
    requires forall row :: row in rows ==> row.revision == revision
    ensures DbSound(RecordedAll(d, rows, commits))
  {
    RecordedAllKeeps(d, rows, commits, revision);
  }

  lemma NoPublication(rows: seq<Row>, commits: seq<bool>)
    requires |commits| == |rows| && forall row :: row in rows ==> !row.phase.Publish?
    ensures !Notes(rows, commits)
  {
    forall k | 0 <= k < |rows| ensures !rows[k].phase.Publish? { assert rows[k] in rows; }
  }

  /** An application, on the running server or at a recovery, that ends with the core's answer. */
  lemma ApplicationSound(y: System, z: System, revision: nat, r: CoreResult, rows: seq<Row>, commits: seq<bool>)
    requires Sound(y) && revision <= Latest(y.db) && CoreMay(y.core, revision, r) && |commits| == |rows|
    requires y.core == y.accepted || revision >= y.accepted
    requires rows == RowsOf(revision, Reconstructed(r)) || rows == RecoveryRows(revision, r, false)
    requires z.db == RecordedAll(y.db, rows, commits) && z.waiting == y.waiting && z.inFlight.None?
    requires if r.Accepted? then z == CoreTakes(z, revision, rows, commits) && z.history == y.history + {revision}
             else z.core == y.core && z.accepted == y.accepted && z.history == y.history && z.noted == y.noted
    ensures Sound(z)
  {
    RowsSpeak(revision, r, rows);
    RecordSound(y.db, rows, commits, revision);
    RecordedAllKeeps(y.db, rows, commits, revision);
    if r.Rejected? { NoPublication(rows, commits); }
  }

  /** A failure before the core was asked. */
  lemma SnapshotFailureSound(y: System, z: System, revision: nat, rows: seq<Row>, commits: seq<bool>)
    requires Sound(y) && revision <= Latest(y.db) && |commits| == |rows|
    requires forall row :: row in rows ==> row == Row(revision, Validate, false)
    requires z == y.(inFlight := None, db := RecordedAll(y.db, rows, commits))
    ensures Sound(z)
  {
    RecordSound(y.db, rows, commits, revision);
    RecordedAllKeeps(y.db, rows, commits, revision);
    NoPublication(rows, commits);
  }

  lemma RequestsSound(y: System, t: Step)
    requires Sound(y) && (t.Append? || t.Restore? || t.Request? || t.Claim? || t.Restart?)
    ensures Sound(Next(y, t))
  {}

  lemma SnapshotFailsSound(y: System, t: Step)
    requires Sound(y) && t.SnapshotFails? && Enabled(y, t)
    ensures Sound(Next(y, t))
  {
    SnapshotFailureSound(y, Next(y, t), y.inFlight.value, [Row(y.inFlight.value, Validate, false)], [t.commits]);
  }

  lemma ApplySound(y: System, t: Step)
    requires Sound(y) && t.Apply? && Enabled(y, t)
    ensures Sound(Next(y, t))
  {
    var revision := y.inFlight.value;
    ApplicationSound(y, Next(y, t), revision, t.result, RowsOf(revision, Reconstructed(t.result)), t.committed);
  }

  lemma RecoverSound(y: System, t: Step)
    requires Sound(y) && t.Recover? && Enabled(y, t)
    ensures Sound(Next(y, t))
  {
    var rows := RecoveryRows(Latest(y.db), t.result, t.snapshotFails);
    if t.snapshotFails {
      SnapshotFailureSound(y, Next(y, t), Latest(y.db), rows, t.committed);
    } else {
      ApplicationSound(y, Next(y, t), Latest(y.db), t.result, rows, t.committed);
    }
  }

  lemma NextSound(y: System, t: Step)
    requires Sound(y)
    ensures Sound(Next(y, t))
  {
    if Enabled(y, t) {
      match t
      case SnapshotFails(_) => SnapshotFailsSound(y, t);
      case Apply(_, _) => ApplySound(y, t);
      case Recover(_, _, _) => RecoverSound(y, t);
      case _ => RequestsSound(y, t);
    }
  }

  function Run(steps: seq<Step>): System
    decreases |steps|
  {
    if steps == [] then INITIAL else Next(Run(Init(steps)), Last(steps))
  }

  lemma {:induction false} RunSound(steps: seq<Step>)
    ensures Sound(Run(steps))
    decreases |steps|
  {
    if steps != [] {
      RunSound(Init(steps));
      NextSound(Run(Init(steps)), Last(steps));
    }
  }

  /** Over every history, restarts and lost transactions included: revisions are numbered without
      gaps; the recorded active and last good revisions are one, and were published, so that no
      start is refused; they are the last the core accepted unless recording that was lost; and a
      publication is on record only for a revision the core accepted. */
  lemma RecordFollowsCore(steps: seq<Step>)
    ensures var y := Run(steps);
            && Numbered(y.db.revisions) && y.db.desired == |y.db.revisions|
            && y.db.active == y.db.lastGood && RecordVerified(y.db, y.db.active)
            && (y.noted ==> y.db.active == y.accepted) && y.db.active <= y.accepted <= y.db.desired
            && forall row :: row in y.db.results && row.phase.Publish? ==> row.succeeded && row.revision in y.history
  {
    RunSound(steps);
  }

  /** No step changes a stored revision, and neither the last accepted nor the recorded active
      revision ever goes back, not even over a restart that leaves the core empty. */
  lemma NothingGoesBack(y: System, t: Step)
    requires Sound(y)
    ensures y.db.revisions <= Next(y, t).db.revisions
    ensures y.accepted <= Next(y, t).accepted && y.db.active <= Next(y, t).db.active
  {
    if Enabled(y, t) {
      match t
      case SnapshotFails(commits) =>
        RecordedAllKeeps(y.db, [Row(y.inFlight.value, Validate, false)], [commits], y.inFlight.value);
        NoPublication([Row(y.inFlight.value, Validate, false)], [commits]);
      case Apply(r, commits) =>
        RecordedLater(y, y.inFlight.value, r, RowsOf(y.inFlight.value, Reconstructed(r)), commits);
      case Recover(r, fails, commits) =>
        var rows := RecoveryRows(Latest(y.db), r, fails);
        if fails {
          RecordedAllKeeps(y.db, rows, commits, Latest(y.db));
        } else {
          RecordedLater(y, Latest(y.db), r, rows, commits);
        }
      case _ =>
    }
  }

  lemma RecordedLater(y: System, revision: nat, r: CoreResult, rows: seq<Row>, commits: seq<bool>)
    requires Sound(y) && CoreMay(y.core, revision, r) && |commits| == |rows|
    requires y.core == y.accepted || revision >= y.accepted
    requires rows == RowsOf(revision, Reconstructed(r)) || rows == RecoveryRows(revision, r, false)
    ensures var d := RecordedAll(y.db, rows, commits);
            d.revisions == y.db.revisions && d.active >= y.db.active && (r.Accepted? ==> revision >= y.accepted)
  {
    RowsSpeak(revision, r, rows);
    RecordedAllKeeps(y.db, rows, commits, revision);
    if r.Rejected? { NoPublication(rows, commits); }
  }

  /** What is stored is what was asked for, under the next number: the content given, or that of the
      revision restored. A transaction that fails stores nothing. */
  lemma StoresWhatIsAsked(y: System, t: Step)
    requires Sound(y) && (t.Append? || t.Restore?) && Enabled(y, t)
    ensures var content := if t.Append? then t.content else y.db.revisions[t.source - 1].content;
            var next := |y.db.revisions| + 1;
            if t.commits
            then Next(y, t).db == y.db.(revisions := y.db.revisions + [Revision(next, content)], desired := next)
            else Next(y, t).db == y.db
  {}

  function FailedRows(rows: seq<Row>): nat {
    if rows == [] then 0 else FailedRows(Init(rows)) + if Last(rows).succeeded then 0 else 1
  }

  lemma {:induction false} FailedRowsOf(revision: nat, o: seq<PhaseOutcome>)
    ensures FailedRows(RowsOf(revision, o)) == Failures(o)
    decreases |o|
  {
    if o != [] {
      FailedRowsOf(revision, Init(o));
      assert Init(RowsOf(revision, o)) == RowsOf(revision, Init(o));
    }
  }

  lemma FailedRowsAdd(rows: seq<Row>, row: Row)
    ensures FailedRows(rows + [row]) == FailedRows(rows) + if row.succeeded then 0 else 1
  {
    Snoc(rows, row);
  }

  /** Each failed row sends out a notice. A failed application leaves one on a running server, but
      two at a recovery, where the start-up code records the failure once more. */
  lemma OneFailureTwoNotices(revision: nat, r: CoreResult, snapshotFails: bool)
    requires BeforeSwitch(r)
    ensures FailedRows(RowsOf(revision, Reconstructed(r))) == if r.Accepted? then 0 else 1
    ensures FailedRows(RecoveryRows(revision, r, snapshotFails)) == if r.Accepted? && !snapshotFails then 0 else 2
  {
    var failed := Row(revision, Validate, false);
    PublishedIffAccepted(r);
    FailedRowsOf(revision, Reconstructed(r));
    if snapshotFails {
      FailedRowsAdd([], failed);
      FailedRowsAdd([failed], failed);
      assert [] + [failed] == [failed] && [failed] + [failed] == [failed, failed];
    } else {
      var rows := RowsOf(revision, Reconstructed(r));
      var end := if r.Accepted? then Row(revision, Drain, true) else failed;
      FailedRowsAdd(rows, end);
      assert RecoveryRows(revision, r, false) == rows + [end];
    }
  }

  // The store and the service.

  class Store {
    var revisions: seq<Revision>
    var desired: nat
    var active: nat
    var lastGood: nat
    var results: seq<Row>

    ghost function Model(): Db
      reads this
    {
      Db(revisions, desired, active, lastGood, results)
    }

    constructor ()
      ensures Model() == EMPTY
    {
      revisions, desired, active, lastGood, results := [], 0, 0, 0, [];
    }

    function NextRevision(): (n: nat)
      requires Numbered(revisions)
      reads this
      ensures forall r :: r in revisions ==> r.number < n
    {
      |revisions| + 1
    }

    /** The one way to write what is wanted: a new revision. The transaction may fail as a whole. */
    method AppendRevision(content: string, commits: bool) returns (revision: Option<nat>)
      requires Numbered(revisions)
      modifies this`revisions, this`desired
      ensures revision.Some? <==> commits
      ensures revision.None? ==> Model() == old(Model())
      ensures revision.Some? ==> Model() == Appended(old(Model()), content) && revision.value == desired
      ensures revision.Some? ==> Numbered(revisions) && desired == |revisions|
      ensures revision.Some? ==> revisions == old(revisions) + [Revision(|old(revisions)| + 1, content)]
    {
      if !commits {
        return None;
      }
      var next := NextRevision();
      revisions, desired := revisions + [Revision(next, content)], next;
      return Some(next);
    }

    /** An old revision comes back as a new one with its content. */
    method RestoreRevision(source: nat, commits: bool) returns (revision: Option<nat>)
      requires Numbered(revisions)
      modifies this`revisions, this`desired
      ensures revision.Some? <==> commits && 1 <= source <= |old(revisions)|
      ensures revision.None? ==> Model() == old(Model())
      ensures revision.Some? ==> 1 <= source <= |old(revisions)|
      ensures revision.Some? ==> Model() == Appended(old(Model()), old(revisions)[source - 1].content)
      ensures revision.Some? ==> revisions == old(revisions) +
                                 [Revision(|old(revisions)| + 1, old(revisions)[source - 1].content)]
    {
      if source < 1 || source > |revisions| {
        return None;
      }
      revision := AppendRevision(revisions[source - 1].content, commits);
    }

    method RecordApplyResult(row: Row, commits: bool)
      modifies this`results, this`active, this`lastGood
      ensures Model() == if commits then Recorded(old(Model()), row) else old(Model())
    {
      if !commits {
        return;
      }
      results := results + [row];
      if row.phase == Publish && row.succeeded {
        active, lastGood := row.revision, row.revision;
      }
    }

    /** Looks for the publication that a recorded revision must have come from. */
    method VerifyActiveRecord(revision: nat) returns (ok: bool)
      ensures ok == RecordVerified(Model(), revision)
      ensures ok <==> revision == 0 || exists k :: 0 <= k < |results| && results[k] == Row(revision, Publish, true)
    {
      if revision == 0 {
        return true;
      }
      for k := 0 to |results|
        invariant forall j :: 0 <= j < k ==> results[j] != Row(revision, Publish, true)
      {
        if results[k] == Row(revision, Publish, true) {
          return true;
        }
      }
      return false;
    }

    /** One transaction for each phase, in order; a failed one is logged and the next tried. */
    method RecordCoreResult(revision: nat, r: CoreResult, commits: seq<bool>)
      requires |commits| == |Reconstructed(r)|
      modifies this`results, this`active, this`lastGood
      ensures Model() == RecordedAll(old(Model()), RowsOf(revision, Reconstructed(r)), commits)
    {
      var phases := ReconstructPhases(r);
      ghost var rows := RowsOf(revision, phases);
      for k := 0 to |phases|
        invariant Model() == RecordedAll(old(Model()), rows[..k], commits[..k])
      {
        RecordApplyResult(Row(revision, phases[k].phase, phases[k].succeeded), commits[k]);
        assert rows[..k + 1] == rows[..k] + [rows[k]] && commits[..k + 1] == commits[..k] + [commits[k]];
        Snoc(rows[..k], rows[k]);
        Snoc(commits[..k], commits[k]);
      }
      assert rows[..|phases|] == rows && commits[..|phases|] == commits;
    }
  }
}
