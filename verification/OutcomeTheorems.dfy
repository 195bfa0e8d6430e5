/** Build outcomes per commit, in runs without reconciler releases. */
module OutcomeTheorems {
  import opened Domain
  import opened Transactions
  import opened AuditLog
  import opened RowCore
  import opened Protocol
  import opened Invariant

  /** None, failed, succeeded, or failed and then succeeded. */
  predicate Lawful(outcomes: seq<bool>) {
    outcomes == [] || outcomes == [false] || outcomes == [true] || outcomes == [false, true]
  }

  /** What a settled build state says about the newest request's outcomes. */
  predicate Settles(build: BuildState, outcomes: seq<bool>) {
    && (build.Idle? ==> outcomes == [true] || outcomes == [false, true])
    && (build.BuildFailed? ==> outcomes == [false])
    && (build.Building? ==> outcomes == [])
  }

  function NewestOutcomes(b: Builds): seq<bool> {
    if b.Newest().None? then [] else OutcomesOf(b.outcomes, b.Newest().value)
  }

  /** A row under an edit's claim is as settled as the claim found it. */
  ghost predicate RowSettles(row: Row, b: Builds) {
    if row.build.Building? && row.buildingSha.None? then Lawful(NewestOutcomes(b)) && NewestOutcomes(b) != []
    else Settles(row.build, NewestOutcomes(b))
  }

  ghost predicate OutcomeInv(st: State) {
    && RowSettles(st.Row(), st.core.Built())
    && (forall sha :: Lawful(OutcomesOf(st.core.Built().outcomes, sha)))
    && (forall i | i in st.edits :: Settles(st.edits[i].before.build, NewestOutcomes(st.edits[i].builds)))
  }

  predicate IsReconciler(s: Step) { s.Direct? && s.direct.ReleaseLock? }

  lemma AppendedOutcome(b: Builds, o: Outcome)
    requires b.Newest() == Some(o.sha)
    requires forall sha :: Lawful(OutcomesOf(b.outcomes, sha))
    requires NewestOutcomes(b) == [] || (NewestOutcomes(b) == [false] && o.succeeded)
    ensures NewestOutcomes(b.(outcomes := b.outcomes + [o])) == NewestOutcomes(b) + [o.succeeded]
    ensures forall sha :: Lawful(OutcomesOf(b.outcomes + [o], sha))
  {
    forall sha ensures Lawful(OutcomesOf(b.outcomes + [o], sha)) {
      OutcomesAppend(b.outcomes, o, sha);
    }
    OutcomesAppend(b.outcomes, o, o.sha);
  }

  lemma FreshRequestHasNoOutcome(b: Builds, shas: set<Sha>, sha: Sha)
    requires BuildsInv(b, shas) && sha !in b.requests
    ensures OutcomesOf(b.outcomes, sha) == []
  {
    NoOutcomeWithoutRow(b.outcomes, sha);
  }

  lemma CutOverSettles(c: Core, event: CiWebhook, created: Option<CappDeployment>)
    requires CoreInv(c) && event.outcome.Success? && CommitReason(c.db, event.sha).None?
    requires RowSettles(c.db.row, c.Built()) && forall sha :: Lawful(OutcomesOf(c.Built().outcomes, sha))
    ensures var c' := CutOverCore(c, event, created);
      RowSettles(c'.db.row, c'.Built()) && forall sha :: Lawful(OutcomesOf(c'.Built().outcomes, sha))
  {
    NewestIsReplayed(c.db.log);
    ReplayCutOver(c.db, event, created);
    AppendedOutcome(c.Built(), Outcome(event.sha, true, |c.Built().requests|));
  }

  lemma FailureSettles(c: Core, sha: Sha)
    requires CoreInv(c) && RowSettles(c.db.row, c.Built()) && forall s :: Lawful(OutcomesOf(c.Built().outcomes, s))
    ensures var c' := FailureCore(c, sha);
      RowSettles(c'.db.row, c'.Built()) && forall s :: Lawful(OutcomesOf(c'.Built().outcomes, s))
  {
    if Admission(c.db.row, sha).None? {
      ReplayAppend(c.db.log, Revision(BuildFailure(sha), None, BUILD_ACTOR));
      AppendedOutcome(c.Built(), Outcome(sha, false, |c.Built().requests|));
    }
  }

  lemma FinishSettles(c: Core, e: EditActor)
    requires CoreInv(c) && EditOk(c, e) && e.phase.Committed? && RowSettles(c.db.row, c.Built())
    ensures var c' := FinishCore(c, e);
      RowSettles(c'.db.row, c'.Built()) && c'.Built().outcomes == c.Built().outcomes
  {
    if Holds(c.db.row, e.claim.deadline) {
      ReplayAppend(c.db.log, Revision(Edit(e.phase.sha), None, e.actor));
      FreshRequestHasNoOutcome(c.Built(), c.shas, e.phase.sha);
    }
  }

  lemma ReleaseSettles(c: Core, e: EditActor)
    requires EditOk(c, e) && RowSettles(c.db.row, c.Built()) && Settles(e.before.build, NewestOutcomes(e.builds))
    ensures RowSettles(ReleaseCore(c, e).db.row, c.Built())
  {
  }

  lemma EditKeepsOutcomes(st: State, eid: nat, s: EditStep)
    requires CoreInv(st.core) && OutcomeInv(st) && EditEnabled(st, eid, s)
    requires eid in st.edits ==> EditOk(st.core, st.edits[eid])
    ensures OutcomeInv(EditApply(st, eid, s))
  {
    if s.Finish? {
      FinishSettles(st.core, st.edits[eid]);
    } else if s.Release? {
      ReleaseSettles(st.core, st.edits[eid]);
    }
  }

  lemma CommitKeepsOutcomes(st: State, did: nat, recorded: bool)
    requires CoreInv(st.core) && OutcomeInv(st) && did in st.deliveries && st.deliveries[did].InWindow()
    ensures OutcomeInv(DoCommitBuild(st, did, recorded))
  {
    if recorded && CommitReason(st.core.db, st.deliveries[did].event.sha).None? {
      CutOverSettles(st.core, st.deliveries[did].event, st.deliveries[did].phase.created);
    }
  }

  lemma SameOutcomes(st: State, st': State)
    requires OutcomeInv(st) && st'.core == st.core && st'.edits == st.edits
    ensures OutcomeInv(st')
  {
  }

  lemma QuietDelivery(st: State, did: nat, s: DeliveryStep)
    requires DeliveryEnabled(st, did, s) && !s.RecordFailure? && !s.CommitBuild?
    ensures DeliveryApply(st, did, s).core == st.core && DeliveryApply(st, did, s).edits == st.edits
  {
  }

  lemma DeliveryKeepsOutcomes(st: State, did: nat, s: DeliveryStep)
    requires CoreInv(st.core) && OutcomeInv(st) && DeliveryEnabled(st, did, s)
    ensures OutcomeInv(DeliveryApply(st, did, s))
  {
    if s.RecordFailure? {
      FailureSettles(st.core, st.deliveries[did].event.sha);
    } else if s.CommitBuild? {
      CommitKeepsOutcomes(st, did, s.recorded);
    } else {
      QuietDelivery(st, did, s);
      SameOutcomes(st, DeliveryApply(st, did, s));
    }
  }

  lemma RunnerKeepsOutcomes(st: State, rid: nat, s: RunnerStep)
    requires OutcomeInv(st) && RunnerEnabled(st, rid, s)
    ensures OutcomeInv(RunnerApply(st, rid, s))
  {
    RunnerFrame(st, rid, s);
  }

  lemma DirectKeepsOutcomes(st: State, s: DirectStep)
    requires OutcomeInv(st) && DirectEnabled(st, s) && !s.ReleaseLock?
    ensures OutcomeInv(DirectApply(st, s))
  {
    DirectAddsNoOutcome(st, s);
  }

  lemma StepKeepsOutcomes(st: State, s: Step)
    requires Inv(st) && OutcomeInv(st) && Enabled(st, s) && !IsReconciler(s)
    ensures OutcomeInv(Apply(st, s))
  {
    match s
    case EditBy(eid, e) => EditKeepsOutcomes(st, eid, e);
    case DeliveryBy(did, d) => DeliveryKeepsOutcomes(st, did, d);
    case RunnerBy(rid, r) => RunnerKeepsOutcomes(st, rid, r);
    case Direct(d) => DirectKeepsOutcomes(st, d);
  }

  lemma InitOutcomes(st: State)
    requires Init(st)
    ensures OutcomeInv(st)
  {
    var log := st.core.db.log;
    ReplayAppend([], log[0]);
    assert [] + [log[0]] == log;
  }

  lemma {:induction false} OutcomesKept(states: seq<State>, steps: seq<Step>, i: nat)
    requires IsRun(states, steps) && i < |states|
    requires forall k | 0 <= k < i :: !IsReconciler(steps[k])
    ensures OutcomeInv(states[i])
    decreases i
  {
    if i == 0 {
      InitOutcomes(states[0]);
    } else {
      OutcomesKept(states, steps, i - 1);
      RunKeepsInv(states, steps, i - 1);
      StepKeepsOutcomes(states[i - 1], steps[i - 1]);
    }
  }

  /** However many deliveries of however many webhooks overlap, each commit's outcome rows are
      none, failed, succeeded, or failed then succeeded. */
  lemma OutcomesAreLawful(states: seq<State>, steps: seq<Step>, i: nat, sha: Sha)
    requires IsRun(states, steps) && i < |states|
    requires forall k | 0 <= k < i :: !IsReconciler(steps[k])
    ensures Lawful(OutcomesOf(Replay(states[i].core.db.log).builds.outcomes, sha))
  {
    OutcomesKept(states, steps, i);
  }

  // --- who writes an outcome -----------------------------------------------------------

  lemma EditAddsNoOutcome(st: State, eid: nat, s: EditStep)
    requires EditEnabled(st, eid, s)
    ensures EditApply(st, eid, s).core.Built().outcomes == st.core.Built().outcomes
  {
    if s.Finish? {
      ReplayAppend(st.core.db.log, Revision(Edit(st.edits[eid].phase.sha), None, st.edits[eid].actor));
    }
  }

  lemma DirectAddsNoOutcome(st: State, s: DirectStep)
    requires DirectEnabled(st, s)
    ensures DirectApply(st, s).core.Built() == st.core.Built()
  {
    match s
    case Toggle(enable, actor) =>
      ReplayAppend(st.core.db.log, Revision(if enable then Enable else Disable, st.Row().activeDigest, actor));
    case BeginDelete(actor) =>
      ReplayAppend(st.core.db.log, Revision(Delete, st.Row().activeDigest, actor));
    case _ =>
  }

  lemma RunnerAddsNoOutcome(st: State, rid: nat, s: RunnerStep)
    requires RunnerEnabled(st, rid, s)
    ensures RunnerApply(st, rid, s).core.db.log == st.core.db.log
  {
  }

  ghost predicate AddsItsOutcome(c: Core, c': Core, d: Delivery) {
    c'.Built().outcomes == c.Built().outcomes
      + [Outcome(d.event.sha, d.event.outcome.Success?, |c.Built().requests|)]
  }

  lemma FailureAddsItsOutcome(c: Core, d: Delivery)
    requires d.event.outcome.Failed? && FailureCore(c, d.event.sha).db.log != c.db.log
    ensures AddsItsOutcome(c, FailureCore(c, d.event.sha), d)
  {
    ReplayAppend(c.db.log, Revision(BuildFailure(d.event.sha), None, BUILD_ACTOR));
  }

  lemma CutOverAddsItsOutcome(c: Core, d: Delivery, created: Option<CappDeployment>)
    requires d.event.outcome.Success?
    ensures AddsItsOutcome(c, CutOverCore(c, d.event, created), d)
  {
    ReplayCutOver(c.db, d.event, created);
  }

  lemma DeliveryAddsItsOutcome(st: State, did: nat, s: DeliveryStep)
    requires DeliveryEnabled(st, did, s) && DeliveryApply(st, did, s).core.db.log != st.core.db.log
    ensures did in st.deliveries && AddsItsOutcome(st.core, DeliveryApply(st, did, s).core, st.deliveries[did])
  {
    match s
    case RecordFailure => FailureAddsItsOutcome(st.core, st.deliveries[did]);
    case CommitBuild(_) => CutOverAddsItsOutcome(st.core, st.deliveries[did], st.deliveries[did].phase.created);
  }

  lemma OutcomeIsADeliverys(st: State, s: Step)
    requires Enabled(st, s) && Apply(st, s).core.Built().outcomes != st.core.Built().outcomes
    ensures s.DeliveryBy? && s.did in st.deliveries
    ensures AddsItsOutcome(st.core, Apply(st, s).core, st.deliveries[s.did])
  {
    match s
    case EditBy(eid, e) => EditAddsNoOutcome(st, eid, e);
    case DeliveryBy(did, d) => DeliveryAddsItsOutcome(st, did, d);
    case RunnerBy(rid, r) => RunnerAddsNoOutcome(st, rid, r);
    case Direct(d) => DirectAddsNoOutcome(st, d);
  }

  /** In any run, reconciler releases included, a new outcome row is written only by a delivery whose
      admission found the row building that very commit: a success over a recorded failure too. */
  lemma OutcomeComesFromAnAdmittedDelivery(states: seq<State>, steps: seq<Step>, i: nat)
    requires IsRun(states, steps) && i < |steps|
    requires states[i + 1].core.Built().outcomes != states[i].core.Built().outcomes
    ensures steps[i].DeliveryBy? && steps[i].did in states[i].deliveries
    ensures var d := states[i].deliveries[steps[i].did];
      && AddsItsOutcome(states[i].core, states[i + 1].core, d)
      && d.target.build.Building? && d.target.buildingSha == Some(d.event.sha) && !d.target.matching.InDeletion()
  {
    RunKeepsInv(states, steps, i);
    OutcomeIsADeliverys(states[i], steps[i]);
    assert DeliveryOk(states[i].core, states[i].deliveries[steps[i].did]);
  }
}
