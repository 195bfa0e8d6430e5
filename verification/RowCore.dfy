/** The database side of the protocol: what every transaction keeps (`CoreInv`) and what
    every transaction promises the actors that are between two of their own (`Guarantee`). */
module RowCore {
  import opened Domain
  import opened Transactions
  import opened AuditLog

  /** The database, the tokens handed out so far, and the wallet of the create call
      whose deployment id is stored. */
  datatype Core = Core(db: Db, shas: set<Sha>, deadlines: set<Deadline>, storedFrom: Option<Wallet>)
  {
    function Audit(): Summary { Replay(db.log) }
    function Built(): Builds { Replay(db.log).builds }
  }

  function StepOf(row: Row): nat { if row.cascadeStep.Some? then row.cascadeStep.value else 0 }

  // --- the invariant ---------------------------------------------------------

  /** The log replays to the row. */
  predicate AuditInv(row: Row, s: Summary) {
    && s.matching == (if row.matching.Deleted? then Deleting else row.matching)
    && s.digest == row.activeDigest
    && s.generation == row.indexGeneration
    && s.deletes == (if row.matching.InDeletion() then 1 else 0)
  }

  /** Requests are distinct known commits; an outcome names the newest request of its instant. */
  ghost predicate BuildsInv(b: Builds, shas: set<Sha>) {
    && b.requests != []
    && (forall i | 0 <= i < |b.requests| :: b.requests[i] in shas)
    && (forall i, j | 0 <= i < j < |b.requests| :: b.requests[i] != b.requests[j])
    && (forall i | 0 <= i < |b.outcomes| ::
          1 <= b.outcomes[i].requestedBefore <= |b.requests|
          && b.requests[b.outcomes[i].requestedBefore - 1] == b.outcomes[i].sha)
    && (forall i, j | 0 <= i < j < |b.outcomes| :: b.outcomes[i].requestedBefore <= b.outcomes[j].requestedBefore)
  }

  predicate LockInv(row: Row, b: Builds, deadlines: set<Deadline>) {
    && (row.build.Building? <==> row.lockDeadline.Some?)
    && (row.lockDeadline.Some? ==> row.lockDeadline.value in deadlines)
    && (row.build.Building? && row.buildingSha.Some? ==> row.buildingSha == b.Newest())
  }

  predicate DeletionInv(row: Row) {
    && (row.matching.InDeletion() ==> !row.build.Building?)
    && (row.matching.InDeletion() <==> row.cascadeStep.Some?)
    && (row.matching.Deleting? ==> 1 <= StepOf(row) <= 4)
    && (row.matching.Deleted? ==> StepOf(row) == 5)
  }

  predicate DeploymentInv(row: Row, storedFrom: Option<Wallet>) {
    && (row.activeDigest.Some? <==> row.cappDeploymentId.Some?)
    && (row.activeDigest.Some? ==> !Blank(row.activeDigest.value.reference))
    && (row.matching.Active? ==> row.activeDigest.Some?)
    && (row.cappDeploymentId.Some? ==>
          row.cappDeploymentId.value == CappName(row.id) && storedFrom == Some(row.namespace))
  }

  ghost predicate CoreInv(c: Core) {
    && AuditInv(c.db.row, c.Audit())
    && BuildsInv(c.Built(), c.shas)
    && LockInv(c.db.row, c.Built(), c.deadlines)
    && DeletionInv(c.db.row)
    && DeploymentInv(c.db.row, c.storedFrom)
    && RequestsLearn(c.db.log)
  }

  // --- the guarantee ---------------------------------------------------------

  /** Equal but for the cascade's own progress. */
  predicate Frozen(r: Row, r': Row) { r' == r.(cascadeStep := r'.cascadeStep, matching := r'.matching) }

  /** Equal but for what a toggle writes. */
  predicate Untoggled(r: Row, r': Row) {
    r' == r.(matching := r'.matching, indexGeneration := r'.indexGeneration, updatedBy := r'.updatedBy)
  }

  predicate KeepsDeletion(c: Core, c': Core) {
    c.db.row.matching.InDeletion() ==>
      && c'.db.row.matching.InDeletion()
      && Frozen(c.db.row, c'.db.row)
      && c'.db.log == c.db.log
      && StepOf(c.db.row) <= StepOf(c'.db.row)
  }

  /** The wallet and the definition move only together with a new request. */
  predicate KeepsRequests(c: Core, c': Core, request: Option<Sha>) {
    || (&& c'.Built().requests == c.Built().requests
        && c'.db.row.namespace == c.db.row.namespace
        && c'.db.row.definition == c.db.row.definition)
    || (request.Some? && c'.Built().requests == c.Built().requests + [request.value])
  }

  predicate KeepsDeployment(r: Row, r': Row) {
    && r'.id == r.id
    && (r.cappDeploymentId.Some? ==> r'.cappDeploymentId == r.cappDeploymentId && r'.namespace == r.namespace)
  }

  /** A lost claim never comes back; under a held one only its owner and toggles write. */
  ghost predicate KeepsClaims(c: Core, c': Core, owner: Option<Deadline>) {
    forall d | d in c.deadlines && Holds(c'.db.row, d) ::
      && Holds(c.db.row, d)
      && (owner != Some(d) && c.db.row.buildingSha.None? ==>
            Untoggled(c.db.row, c'.db.row) && c'.Built() == c.Built())
  }

  /** What a transaction by the owner of claim `owner`, adding `request`, promises everyone else. */
  ghost predicate Guarantee(c: Core, c': Core, owner: Option<Deadline>, request: Option<Sha>) {
    && c.shas <= c'.shas
    && c.deadlines <= c'.deadlines
    && KeepsDeletion(c, c')
    && KeepsRequests(c, c', request)
    && KeepsDeployment(c.db.row, c'.db.row)
    && KeepsClaims(c, c', owner)
  }

  // --- every transaction keeps the invariant and the guarantee ------------------

  ghost predicate Good(c: Core, c': Core, owner: Option<Deadline>, request: Option<Sha>) {
    CoreInv(c') && Guarantee(c, c', owner, request)
  }

  function WithRow(c: Core, row: Row): Core { c.(db := c.db.(row := row)) }

  lemma CreatedGood(id: Uuid, tenant: string, data: AutomationIn, actor: Actor, sha: Sha, deadline: Deadline)
    ensures CoreInv(Core(Db(CreatedRow(id, tenant, data, actor, sha, deadline), [Revision(Create(sha), None, actor)]),
                         {sha}, {deadline}, None))
  {
    var log := [Revision(Create(sha), None, actor)];
    ReplayAppend([], log[0]);
    assert [] + log == log;
    NothingBuiltUnrequested(log, sha);
  }

  lemma NewShaGood(c: Core, sha: Sha)
    requires CoreInv(c)
    ensures Good(c, c.(shas := c.shas + {sha}), None, None)
  {
  }

  lemma ClaimGood(c: Core, data: AutomationIn, deadline: Deadline)
    requires CoreInv(c) && deadline !in c.deadlines
    requires ClaimRefusal(c.db.row, data) == None
    ensures Good(c, WithRow(c, Claimed(c.db.row, deadline)).(deadlines := c.deadlines + {deadline}), None, None)
  {
  }

  lemma ReleaseGood(c: Core, claim: BuildClaim)
    requires CoreInv(c) && !claim.previousBuildState.Building?
    ensures Good(c, WithRow(c, Released(c.db.row, claim)), Some(claim.deadline), None)
  {
  }

  lemma {:induction false} SuccessIsReplayed(log: seq<Revision>, i: nat)
    requires i < |log| && log[i].action.BuildSucceeded?
    ensures exists j | 0 <= j < |Replay(log).builds.outcomes| ::
              Replay(log).builds.outcomes[j].sha == log[i].action.sha
  {
    var front := log[..|log| - 1];
    if i < |front| {
      SuccessIsReplayed(front, i);
      var outcomes, outcomes' := Replay(front).builds.outcomes, Replay(log).builds.outcomes;
      var j :| 0 <= j < |outcomes| && outcomes[j].sha == log[i].action.sha;
      assert outcomes'[j] == outcomes[j];
    } else {
      var outcomes := Replay(log).builds.outcomes;
      assert outcomes[|outcomes| - 1].sha == log[i].action.sha;
    }
  }

  lemma FinishGood(c: Core, data: AutomationIn, actor: Actor, sha: Sha, deadline: Deadline)
    requires CoreInv(c) && Holds(c.db.row, deadline)
    requires sha in c.shas && sha !in c.Built().requests
    requires !WalletMoves(c.db.row, data)
    ensures Good(c, c.(db := FinishedEdit(c.db, data, actor, sha)), Some(deadline), Some(sha))
  {
    var r := Revision(Edit(sha), None, actor);
    ReplayAppend(c.db.log, r);
    forall i | 0 <= i < |c.db.log| ensures c.db.log[i].action != BuildSucceeded(sha) {
      if c.db.log[i].action == BuildSucceeded(sha) {
        SuccessIsReplayed(c.db.log, i);
      }
    }
    LearnAppend(c.db.log, r);
  }

  lemma ToggleGood(c: Core, enable: bool, actor: Actor)
    requires CoreInv(c) && ToggleRefusal(c.db.row, enable) == None
    ensures Good(c, c.(db := Toggled(c.db, enable, actor)), None, None)
  {
    var r := Revision(if enable then Enable else Disable, c.db.row.activeDigest, actor);
    ReplayAppend(c.db.log, r);
    LearnAppend(c.db.log, r);
  }

  lemma DeleteGood(c: Core, actor: Actor)
    requires CoreInv(c) && !c.db.row.matching.InDeletion() && DeleteRefusal(c.db.row) == None
    ensures Good(c, c.(db := DeleteBegun(c.db, actor)), None, None)
  {
    var r := Revision(Delete, c.db.row.activeDigest, actor);
    ReplayAppend(c.db.log, r);
    LearnAppend(c.db.log, r);
  }

  lemma CheckpointGood(c: Core, completed: nat)
    requires CoreInv(c) && 1 <= completed <= 5
    ensures Good(c, WithRow(c, Checkpointed(c.db.row, completed)), None, None)
  {
  }

  lemma LockReleaseGood(c: Core, clearsSha: bool)
    requires CoreInv(c) && c.db.row.build.Building?
    ensures Good(c, WithRow(c, LockReleased(c.db.row, clearsSha)), None, None)
  {
  }

  lemma OutcomeBuilds(b: Builds, shas: set<Sha>, o: Outcome)
    requires BuildsInv(b, shas) && Some(o.sha) == b.Newest() && o.requestedBefore == |b.requests|
    ensures BuildsInv(b.(outcomes := b.outcomes + [o]), shas)
  {
  }

  lemma FailureGood(c: Core, sha: Sha)
    requires CoreInv(c) && Admission(c.db.row, sha) == None
    ensures Good(c, c.(db := FailureRecorded(c.db, sha)), None, None)
  {
    var r := Revision(BuildFailure(sha), None, BUILD_ACTOR);
    ReplayAppend(c.db.log, r);
    OutcomeBuilds(c.Built(), c.shas, Outcome(sha, false, |c.Built().requests|));
    LearnAppend(c.db.log, r);
  }

  /** The cutover, with what its delivery is owed: its create was made in the row's wallet,
      and without a create the row already has its deployment. */
  function CutOverCore(c: Core, event: CiWebhook, created: Option<CappDeployment>): Core
    requires event.outcome.Success?
  {
    c.(db := CutOver(c.db, event, created),
       storedFrom := if created.Some? then Some(created.value.wallet) else c.storedFrom)
  }

  ghost predicate CutOverOwed(c: Core, event: CiWebhook, created: Option<CappDeployment>) {
    && event.outcome.Success?
    && CommitReason(c.db, event.sha) == None
    && !Blank(event.outcome.image.reference)
    && (created.None? ==> c.db.row.cappDeploymentId.Some?)
    && (created.Some? ==>
          created.value.wallet == c.db.row.namespace && created.value.deploymentId == CappName(c.db.row.id))
  }

  lemma CutOverGood(c: Core, event: CiWebhook, created: Option<CappDeployment>)
    requires CoreInv(c) && CutOverOwed(c, event, created)
    ensures Good(c, CutOverCore(c, event, created), None, None)
  {
    var c' := CutOverCore(c, event, created);
    NewestIsReplayed(c.db.log);
    ReplayCutOver(c.db, event, created);
    assert BuildsInv(c'.Built(), c'.shas) by {
      OutcomeBuilds(c.Built(), c.shas, Outcome(event.sha, true, |c.Built().requests|));
    }
    assert RequestsLearn(c'.db.log) by {
      LearnCutOver(c.db.log, event.sha, event.outcome.image);
    }
  }
}
