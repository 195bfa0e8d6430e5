/** Every database transaction on the row as a guard (why it is refused) and an effect
    (what it writes). Each runs under the row lock or is one compare-and-set, so each is
    one atomic step of the protocol. */
module Transactions {
  import opened Domain

  datatype Refusal =
    | NotFound
    | LifecycleConflict
    | AlreadyBuilding
    | NamespaceImmutable
    | Superseded
    | ActiveDigestRequired

  // --- authoring -----------------------------------------------------------

  function CreatedRow(id: Uuid, tenant: string, data: AutomationIn, actor: Actor, sha: Sha, deadline: Deadline): Row {
    Row(id, tenant, data.namespace, DefinitionOf(data), None, None, Inactive, Building, None, Some(sha), None,
        Some(deadline), None, 0, actor, actor)
  }

  /** An edit's hold on the row, and the two columns a release puts back. */
  datatype BuildClaim = BuildClaim(
    deadline: Deadline,
    previousBuildState: BuildState,
    previousBuildingSha: Option<Sha>)

  predicate WalletMoves(row: Row, data: AutomationIn) {
    row.cappDeploymentId.Some? && data.namespace != row.namespace
  }

  function ClaimRefusal(row: Row, data: AutomationIn): Option<Refusal> {
    if row.matching.InDeletion() then Some(LifecycleConflict)
    else if row.build.Building? then Some(AlreadyBuilding)
    else if WalletMoves(row, data) then Some(NamespaceImmutable)
    else None
  }

  function ClaimOf(row: Row, deadline: Deadline): BuildClaim {
    BuildClaim(deadline, row.build, row.buildingSha)
  }

  function Claimed(row: Row, deadline: Deadline): Row {
    row.(build := Building, lockDeadline := Some(deadline), buildingSha := None)
  }

  /** Whether the row still carries the claim taken with this deadline. */
  predicate Holds(row: Row, deadline: Deadline) {
    row.build.Building? && row.lockDeadline == Some(deadline)
  }

  function Released(row: Row, claim: BuildClaim): Row {
    if Holds(row, claim.deadline) then
      row.(build := claim.previousBuildState, buildingSha := claim.previousBuildingSha, lockDeadline := None)
    else row
  }

  function FinishedEdit(db: Db, data: AutomationIn, actor: Actor, sha: Sha): Db {
    Db(db.row.(namespace := data.namespace, definition := DefinitionOf(data), buildingSha := Some(sha),
               updatedBy := actor),
       db.log + [Revision(Edit(sha), None, actor)])
  }

  // --- lifecycle -----------------------------------------------------------

  /** What `str.strip` removes. */
  predicate IsSpace(c: char) {
    || '\t' <= c <= '\r' || '\U{1c}' <= c <= ' ' || c == '\U{85}' || c == '\U{a0}' || c == '\U{1680}'
    || '\U{2000}' <= c <= '\U{200a}' || c == '\U{2028}' || c == '\U{2029}' || c == '\U{202f}'
    || c == '\U{205f}' || c == '\U{3000}'
  }

  /** Empty, or whitespace only. */
  predicate Blank(s: string) { forall i | 0 <= i < |s| :: IsSpace(s[i]) }

  function ToggleRefusal(row: Row, enable: bool): Option<Refusal> {
    if row.matching.InDeletion() then Some(LifecycleConflict)
    else if enable && (row.activeDigest.None? || Blank(row.activeDigest.value.reference)) then
      Some(ActiveDigestRequired)
    else None
  }

  function Toggled(db: Db, enable: bool, actor: Actor): Db {
    Db(db.row.(matching := if enable then Active else Inactive, indexGeneration := db.row.indexGeneration + 1,
               updatedBy := actor),
       db.log + [Revision(if enable then Enable else Disable, db.row.activeDigest, actor)])
  }

  const STEP_MARKED_DELETING: nat := 1
  const STEP_CAPP_RESOURCES_DELETED: nat := 2
  const STEP_IMAGES_DELETED: nat := 3
  const STEP_SCRIPT_ARCHIVED: nat := 4
  const STEP_DELETED: nat := 5

  /** The cascade loop's backstop. */
  const MAX_ITERATIONS := 4 * STEP_DELETED

  /** A row already in deletion is returned unchanged: neither refused nor written. */
  function DeleteRefusal(row: Row): Option<Refusal> {
    if !row.matching.InDeletion() && row.build.Building? then Some(AlreadyBuilding) else None
  }

  function DeleteBegun(db: Db, actor: Actor): Db {
    Db(db.row.(matching := Deleting, cascadeStep := Some(STEP_MARKED_DELETING),
               indexGeneration := db.row.indexGeneration + 1, updatedBy := actor),
       db.log + [Revision(Delete, db.row.activeDigest, actor)])
  }

  /** The compare-and-set's WHERE clause. */
  predicate CheckpointMatches(row: Row, completed: nat)
    requires completed >= 1
  {
    row.matching.Deleting? && row.cascadeStep == (if completed == 1 then None else Some(completed - 1))
  }

  function Checkpointed(row: Row, completed: nat): Row
    requires completed >= 1
  {
    if !CheckpointMatches(row, completed) then row
    else row.(cascadeStep := Some(completed), matching := if completed == STEP_DELETED then Deleted else Deleting)
  }

  // --- builds --------------------------------------------------------------

  /** The reason to turn a delivery away, checked in this order: deletion, build state, commit. */
  function Admission(row: Row, sha: Sha): Option<IgnoredReason> {
    if row.matching.InDeletion() then Some(RowDeleting)
    else if !row.build.Building? then Some(NotBuilding)
    else if row.buildingSha != Some(sha) then Some(ShaMismatch)
    else None
  }

  /** The commit of the newest create/edit revision. */
  function NewestRequest(log: seq<Revision>): Option<Sha> {
    if log == [] then None
    else
      var last := log[|log| - 1].action;
      if last.Requesting() then Some(last.sha) else NewestRequest(log[..|log| - 1])
  }

  predicate FailureRaced(db: Db, sha: Sha) {
    db.row.build.BuildFailed? && NewestRequest(db.log) == Some(sha)
  }

  /** The same when the build is recorded; a failure that raced it does not count against it. */
  function CommitReason(db: Db, sha: Sha): Option<IgnoredReason> {
    var reason := Admission(db.row, sha);
    if reason == Some(NotBuilding) && FailureRaced(db, sha) then None else reason
  }

  /** The revisions that requested `sha` learn what it produced. */
  function Stamp(log: seq<Revision>, sha: Sha, image: Image): (r: seq<Revision>)
    ensures |r| == |log|
  {
    seq(|log|, i requires 0 <= i < |log| =>
      if log[i].action.Requesting() && log[i].action.sha == sha then log[i].(resultingDigest := Some(image))
      else log[i])
  }

  function CutOverRow(row: Row, outcome: BuildOutcome, created: Option<CappDeployment>): Row
    requires outcome.Success?
  {
    row.(cappDeploymentId := if created.Some? then Some(created.value.deploymentId) else row.cappDeploymentId,
         deploymentUrl := if created.Some? then Some(created.value.deploymentUrl) else row.deploymentUrl,
         activeDigest := Some(outcome.image),
         contractVersion := Some(outcome.contractVersion),
         build := Idle,
         buildingSha := None,
         lockDeadline := None)
  }

  function CutOver(db: Db, event: CiWebhook, created: Option<CappDeployment>): Db
    requires event.outcome.Success?
  {
    Db(CutOverRow(db.row, event.outcome, created),
       Stamp(db.log, event.sha, event.outcome.image)
       + [Revision(BuildSucceeded(event.sha), Some(event.outcome.image), BUILD_ACTOR)])
  }

  function FailureRecorded(db: Db, sha: Sha): Db {
    Db(db.row.(build := BuildFailed, buildingSha := None, lockDeadline := None),
       db.log + [Revision(BuildFailure(sha), None, BUILD_ACTOR)])
  }

  /** The reconciler's stuck-build release; whether it also clears the commit is left open. */
  function LockReleased(row: Row, clearsSha: bool): Row {
    row.(build := BuildFailed, lockDeadline := None, buildingSha := if clearsSha then None else row.buildingSha)
  }
}
