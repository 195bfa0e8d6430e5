/** Deletion-aware finalization of automation runs: compare-and-set terminal writes against
    workers, other finalizers and deletions that move the rows at any time. */
module RunFinalization {
  import opened Domain

  datatype RunState = Pending | Submitted | Succeeded | Failed | Stalled | Suppressed
  {
    predicate Open() { Pending? || Submitted? }
    /** Runs only move up: pending, then submitted, then terminal. */
    function Rank(): nat { if Pending? then 0 else if Submitted? then 1 else 2 }
  }

  datatype SuppressionReason = Duplicate | Cooldown | NoLongerActive
  datatype FailureClass = Transient | Permanent | DeadlineExceeded | Unclassified | Infra | TerminatedByDeletion

  datatype Run = Run(
    automationId: Uuid,
    state: RunState,
    suppression: Option<SuppressionReason>,
    failureClass: Option<FailureClass>,
    digest: Option<string>,
    attempts: Option<int>,
    outcomeStatus: Option<string>,
    finishedAt: Option<nat>)

  /** The columns a terminal write sets besides `finished_at`; an absent one keeps its value. */
  datatype Terminal = Terminal(
    state: RunState,
    suppression: Option<SuppressionReason>,
    failureClass: Option<FailureClass>,
    outcomeStatus: Option<string>)

  /** One terminal write; `byDeletion` marks the finalizer's. */
  datatype Write = Write(runId: Uuid, before: Run, after: Run, byDeletion: bool)

  /** The two tables, and every terminal write made so far. */
  datatype RunDb = RunDb(runs: map<Uuid, Run>, automations: map<Uuid, MatchingState>, writes: seq<Write>)

  function Or<T>(value: Option<T>, kept: Option<T>): Option<T> { if value.Some? then value else kept }

  function Finished(run: Run, value: Terminal, now: nat): Run {
    run.(state := value.state, suppression := Or(value.suppression, run.suppression),
         failureClass := Or(value.failureClass, run.failureClass),
         outcomeStatus := Or(value.outcomeStatus, run.outcomeStatus), finishedAt := Some(now))
  }

  /** The UPDATE's WHERE clause. */
  predicate Matches(db: RunDb, runId: Uuid, expected: Option<RunState>) {
    && runId in db.runs && db.runs[runId].state.Open()
    && (expected.Some? ==> db.runs[runId].state == expected.value)
  }

  function Completed(db: RunDb, runId: Uuid, expected: Option<RunState>, value: Terminal, now: nat,
                     byDeletion: bool): RunDb
  {
    if !Matches(db, runId, expected) then db
    else
      var after := Finished(db.runs[runId], value, now);
      db.(runs := db.runs[runId := after],
          writes := db.writes + [Write(runId, db.runs[runId], after, byDeletion)])
  }

  /** What the finalizer writes over a run it believes to be in `expected`. */
  function Attribution(expected: RunState): Terminal {
    if expected.Submitted? then Terminal(RunState.Failed, None, Some(TerminatedByDeletion), None)
    else Terminal(Suppressed, Some(NoLongerActive), None, None)
  }

  // --- everyone's steps ---------------------------------------------------------------

  datatype RunStep =
    | StartRun(runId: Uuid, run: Run)
    | Submit(runId: Uuid, attempts: Option<int>, digest: Option<string>)
    | Note(runId: Uuid, attempts: Option<int>, outcomeStatus: Option<string>)
    | Complete(runId: Uuid, expected: Option<RunState>, value: Terminal, now: nat)
    | Finalize(runId: Uuid, believed: RunState, now: nat)
    | MoveAutomation(id: Uuid, matching: MatchingState)

  predicate StartedDeletion(db: RunDb, id: Uuid) { id in db.automations && db.automations[id].InDeletion() }

  predicate Enabled(db: RunDb, s: RunStep) {
    match s
    case StartRun(runId, _) => runId !in db.runs
    case Submit(runId, _, _) => runId in db.runs && db.runs[runId].state.Pending?
    case Note(runId, _, _) => runId in db.runs && db.runs[runId].state.Open()
    case Complete(_, _, value, _) => !value.state.Open()
    case Finalize(runId, expected, _) =>
      expected.Open() && runId in db.runs && StartedDeletion(db, db.runs[runId].automationId)
    case MoveAutomation(id, matching) => StartedDeletion(db, id) ==> matching.InDeletion()
  }

  function Apply(db: RunDb, s: RunStep): RunDb
    requires Enabled(db, s)
  {
    match s
    case StartRun(runId, run) => db.(runs := db.runs[runId := run])
    case Submit(runId, attempts, digest) =>
      db.(runs := db.runs[runId := db.runs[runId].(state := Submitted, attempts := attempts, digest := digest)])
    case Note(runId, attempts, outcomeStatus) =>
      db.(runs := db.runs[runId := db.runs[runId].(attempts := attempts, outcomeStatus := outcomeStatus)])
    case Complete(runId, expected, value, now) => Completed(db, runId, expected, value, now, false)
    case Finalize(runId, expected, now) => Completed(db, runId, Some(expected), Attribution(expected), now, true)
    case MoveAutomation(id, matching) => db.(automations := db.automations[id := matching])
  }

  // --- what every step keeps ------------------------------------------------------------

  /** No run is written twice, and a written run still is what its write made it. */
  ghost predicate WrittenOnce(db: RunDb) {
    && (forall i, j | 0 <= i < j < |db.writes| :: db.writes[i].runId != db.writes[j].runId)
    && (forall i | 0 <= i < |db.writes| ::
          && db.writes[i].runId in db.runs && db.runs[db.writes[i].runId] == db.writes[i].after
          && db.writes[i].before.state.Open() && !db.writes[i].after.state.Open())
  }

  /** `after` is `before` with the deletion's attribution and nothing else changed. */
  ghost predicate AttributedToDeletion(before: Run, after: Run) {
    && after.finishedAt.Some?
    && (before.state.Submitted? ==>
          after == before.(state := RunState.Failed, failureClass := Some(TerminatedByDeletion),
                           finishedAt := after.finishedAt))
    && (before.state.Pending? ==>
          after == before.(state := Suppressed, suppression := Some(NoLongerActive), finishedAt := after.finishedAt))
  }

  ghost predicate DeletionsAttributed(db: RunDb) {
    forall i | 0 <= i < |db.writes| && db.writes[i].byDeletion ::
      && AttributedToDeletion(db.writes[i].before, db.writes[i].after)
      && StartedDeletion(db, db.writes[i].before.automationId)
  }

  ghost predicate RunInv(db: RunDb) { WrittenOnce(db) && DeletionsAttributed(db) }

  /** How the tables may look later: runs only move up, a terminal run is frozen, deletion is one-way. */
  ghost predicate Evolves(db: RunDb, db': RunDb) {
    && (forall id | id in db.runs ::
          && id in db'.runs && db'.runs[id].automationId == db.runs[id].automationId
          && db.runs[id].state.Rank() <= db'.runs[id].state.Rank()
          && (!db.runs[id].state.Open() ==> db'.runs[id] == db.runs[id]))
    && (forall id | id in db.automations :: id in db'.automations)
    && (forall id | StartedDeletion(db, id) :: StartedDeletion(db', id))
    && db.writes <= db'.writes
  }

  lemma CompletedKeepsRunInv(db: RunDb, runId: Uuid, expected: Option<RunState>, value: Terminal, now: nat,
                             byDeletion: bool)
    requires RunInv(db) && !value.state.Open()
    requires byDeletion && Matches(db, runId, expected) ==>
      && expected.Some? && value == Attribution(expected.value)
      && StartedDeletion(db, db.runs[runId].automationId)
    ensures var db' := Completed(db, runId, expected, value, now, byDeletion); RunInv(db') && Evolves(db, db')
  {
    var db' := Completed(db, runId, expected, value, now, byDeletion);
    forall i | 0 <= i < |db.writes|
      ensures db'.writes[i] == db.writes[i] && (db' != db ==> db.writes[i].runId != runId)
    {
    }
  }

  lemma StepKeepsRunInv(db: RunDb, s: RunStep)
    requires RunInv(db) && Enabled(db, s)
    ensures RunInv(Apply(db, s)) && Evolves(db, Apply(db, s))
  {
    match s
    case StartRun(_, _) =>
    case Submit(_, _, _) =>
    case Note(_, _, _) =>
    case Complete(runId, expected, value, now) => CompletedKeepsRunInv(db, runId, expected, value, now, false);
    case Finalize(runId, believed, now) =>
      CompletedKeepsRunInv(db, runId, Some(believed), Attribution(believed), now, true);
    case MoveAutomation(_, _) =>
  }

  ghost predicate IsRunHistory(dbs: seq<RunDb>, steps: seq<RunStep>) {
    && |dbs| == |steps| + 1 && dbs[0].writes == []
    && forall i | 0 <= i < |steps| :: Enabled(dbs[i], steps[i]) && dbs[i + 1] == Apply(dbs[i], steps[i])
  }

  /** Over any interleaving of workers, finalizers and deletions: each run gets at most one terminal write,
      which stands; the finalizer's own are the two attributions, on a deleting or deleted automation only. */
  lemma {:induction false} TerminalWritesStand(dbs: seq<RunDb>, steps: seq<RunStep>, i: nat, k: nat)
    requires IsRunHistory(dbs, steps) && i <= k < |dbs|
    ensures RunInv(dbs[k]) && Evolves(dbs[i], dbs[k])
    decreases k
  {
    if k > 0 {
      TerminalWritesStand(dbs, steps, if i < k then i else k - 1, k - 1);
      StepKeepsRunInv(dbs[k - 1], steps[k - 1]);
      if i < k {
        EvolvesOn(dbs[i], dbs[k - 1], dbs[k]);
      }
    }
  }

  lemma EvolvesOn(a: RunDb, b: RunDb, c: RunDb)
    requires Evolves(a, b) && Evolves(b, c)
    ensures Evolves(a, c)
  {
  }

  // --- the store ---------------------------------------------------------------------------

  datatype FinalizeResult =
    | Returned(run: Run)
    | RunNotFound
    | AutomationNotFound
    | LifecycleConflict(matching: MatchingState)

  /** Write `at` was made since `was`, by the finalizer, and left `run` as it now stands. */
  ghost predicate Wrote(was: RunDb, db: RunDb, at: nat, runId: Uuid, run: Run) {
    && |was.writes| <= at < |db.writes|
    && db.writes[at].runId == runId && db.writes[at].byDeletion && db.writes[at].after == run
  }

  class RunStore {
    var db: RunDb

    constructor (start: RunDb)
      requires start.writes == []
      ensures db == start && RunInv(db)
    {
      db := start;
    }

    /** Whatever other processes do between two transactions of this one. */
    method Interfere()
      requires RunInv(db)
      modifies this
      ensures RunInv(db) && Evolves(old(db), db)
    {
      var n: nat := *;
      while n > 0
        invariant RunInv(db) && Evolves(old(db), db)
      {
        var s: RunStep := *;
        if Enabled(db, s) {
          StepKeepsRunInv(db, s);
          EvolvesOn(old(db), db, Apply(db, s));
          db := Apply(db, s);
        }
        n := n - 1;
      }
    }

    /** The automation's deletion status; None for an id the table does not hold. */
    method DeletionStarted(id: Uuid) returns (r: Option<bool>)
      ensures r.None? <==> id !in db.automations
      ensures r.Some? ==> r.value == StartedDeletion(db, id)
    {
      r := if id in db.automations then Some(db.automations[id].InDeletion()) else None;
    }

    method CompleteRunIfOpen(runId: Uuid, expected: Option<RunState>, value: Terminal, now: nat, byDeletion: bool)
      returns (changed: bool)
      requires RunInv(db) && !value.state.Open()
      requires byDeletion ==>
        && expected.Some? && expected.value.Open() && value == Attribution(expected.value)
        && runId in db.runs && StartedDeletion(db, db.runs[runId].automationId)
      modifies this
      ensures RunInv(db) && Evolves(old(db), db)
      ensures changed <==> Matches(old(db), runId, expected)
      ensures !changed ==> db == old(db)
      ensures changed ==>
        && runId in db.runs && db.runs == old(db).runs[runId := Finished(old(db).runs[runId], value, now)]
        && db.automations == old(db).automations
        && db.writes == old(db).writes + [Write(runId, old(db).runs[runId], db.runs[runId], byDeletion)]
      ensures changed ==>
        var was, run := old(db).runs[runId], db.runs[runId];
        && run.state == value.state && run.finishedAt == Some(now)
        && run.suppression == (if value.suppression.Some? then value.suppression else was.suppression)
        && run.failureClass == (if value.failureClass.Some? then value.failureClass else was.failureClass)
        && run.outcomeStatus == (if value.outcomeStatus.Some? then value.outcomeStatus else was.outcomeStatus)
        && run.automationId == was.automationId && run.digest == was.digest && run.attempts == was.attempts
    {
      ghost var s := if byDeletion then Finalize(runId, expected.value, now) else Complete(runId, expected, value, now);
      StepKeepsRunInv(db, s);
      changed := Matches(db, runId, expected);
      if changed {
        var after := Finished(db.runs[runId], value, now);
        db := db.(runs := db.runs[runId := after],
                  writes := db.writes + [Write(runId, db.runs[runId], after, byDeletion)]);
      }
    }

    /** One attempt on a run believed to be in `expected`: lost, it leaves the run above that state. */
    method Attempt(runId: Uuid, expected: RunState, now: nat) returns (changed: bool)
      requires RunInv(db) && runId in db.runs && StartedDeletion(db, db.runs[runId].automationId)
      requires expected.Open() && expected.Rank() <= db.runs[runId].state.Rank()
      modifies this
      ensures RunInv(db) && Evolves(old(db), db) && runId in db.runs
      ensures !changed ==> expected.Rank() < db.runs[runId].state.Rank()
      ensures changed ==>
        && old(db).runs[runId].state.Open() && !db.runs[runId].state.Open() && db.runs[runId].finishedAt == Some(now)
        && |old(db).writes| < |db.writes| && Wrote(old(db), db, |db.writes| - 1, runId, db.runs[runId])
    {
      Interfere();
      ghost var was := db;
      changed := CompleteRunIfOpen(runId, Some(expected), Attribution(expected), now, true);
      EvolvesOn(old(db), was, db);
    }

    /** The two compare-and-set attempts, starting from the state `seen` a moment ago; `mine` is where in
        the history their write is. A lost attempt means the run moved up, so after two of them it is terminal. */
    method Attribute(runId: Uuid, seen: RunState, now: nat) returns (run: Run, ghost mine: Option<nat>)
      requires RunInv(db) && runId in db.runs && StartedDeletion(db, db.runs[runId].automationId)
      requires seen.Open() && seen.Rank() <= db.runs[runId].state.Rank()
      modifies this
      ensures RunInv(db) && Evolves(old(db), db)
      ensures runId in db.runs && db.runs[runId] == run && !run.state.Open()
      ensures mine.Some? ==> Wrote(old(db), db, mine.value, runId, run) && run.finishedAt == Some(now)
      ensures !old(db).runs[runId].state.Open() ==> mine == None
    {
      mine := None;
      var expected := seen;
      var attempt := 0;
      while attempt < 2
        invariant 0 <= attempt <= 2 && expected.Open() && expected.Rank() >= attempt && mine == None
        invariant RunInv(db) && Evolves(old(db), db)
        invariant runId in db.runs && expected.Rank() <= db.runs[runId].state.Rank()
      {
        ghost var top := db;
        var changed := Attempt(runId, expected, now);
        EvolvesOn(old(db), top, db);
        if changed {
          mine := Some(|db.writes| - 1);
          break;
        }
        ghost var lost := db;
        Interfere();
        EvolvesOn(old(db), lost, db);
        var current := db.runs[runId];
        if !current.state.Open() {
          return current, None;
        }
        expected := current.state;
        attempt := attempt + 1;
      }
      ghost var done := db;
      assert !db.runs[runId].state.Open();
      Interfere();
      EvolvesOn(old(db), done, db);
      run := db.runs[runId];
    }

    /** Blame the deletion for a run that is still open, and return the run terminal; `mine` is where in the
        history this call's write is. */
    method FinalizeTerminatedByDeletion(runId: Uuid, now: nat) returns (r: FinalizeResult, ghost mine: Option<nat>)
      requires RunInv(db)
      modifies this
      ensures RunInv(db) && Evolves(old(db), db)
      ensures r.Returned? ==> runId in db.runs && db.runs[runId] == r.run && !r.run.state.Open()
      ensures mine.Some? ==>
        r.Returned? && Wrote(old(db), db, mine.value, runId, r.run) && r.run.finishedAt == Some(now)
      ensures r.RunNotFound? ==> runId !in old(db).runs
      ensures r.LifecycleConflict? ==> !r.matching.InDeletion()
      ensures r.AutomationNotFound? && runId in old(db).runs ==>
        old(db).runs[runId].automationId !in old(db).automations
      ensures runId in old(db).runs && old(db).runs[runId].automationId in old(db).automations ==>
        db.runs[runId].state.Open() ==> r.LifecycleConflict?
      ensures runId in old(db).runs && StartedDeletion(old(db), old(db).runs[runId].automationId) ==> r.Returned?
      ensures runId in old(db).runs && !old(db).runs[runId].state.Open() ==>
        r == Returned(old(db).runs[runId]) && mine == None
    {
      Interfere();
      if runId !in db.runs {
        return RunNotFound, None;
      }
      var run := db.runs[runId];
      if !run.state.Open() {
        return Returned(run), None;
      }
      Interfere();
      if run.automationId !in db.automations {
        return AutomationNotFound, None;
      }
      var matching := db.automations[run.automationId];
      if !matching.InDeletion() {
        return LifecycleConflict(matching), None;
      }
      run, mine := Attribute(runId, run.state, now);
      r := Returned(run);
    }
  }
}
