/** The life of one automation as a concurrent protocol. The state holds the database, the
    external world and any number of actors; a database transaction is one step and so is
    every git, CAPP or registry call, so anything may happen between two steps of an actor. */
module Protocol {
  import opened Domain
  import opened ExternalWorld
  import opened Transactions
  import opened AuditLog
  import opened RowCore
  import opened ImageReferences

  // --- actors -----------------------------------------------------------------

  datatype EditPhase = Committing | Committed(sha: Sha) | CommitFailed

  /** An edit between its claim and its finish. `before` and `builds` are the row and the
      build history its claim found; no step reads them. */
  datatype EditActor = EditActor(
    claim: BuildClaim, data: AutomationIn, actor: Actor, phase: EditPhase, before: Row, builds: Builds)

  datatype DeliveryPhase =
    | Admitted
    | Accepted(created: Option<CappDeployment>)
    | TearingDownCapp
    | TearingDownSecret

  /** A webhook delivery past its admission; `target` is the row its first phase read. `calledAt` is how
      many calls the cascade runners had made when it made its CAPP call; no step reads it. */
  datatype Delivery = Delivery(event: CiWebhook, target: Row, phase: DeliveryPhase, calledAt: nat)
  {
    /** Between the CAPP call and the commit that records it. */
    predicate InWindow() { phase.Accepted? && event.outcome.Success? }
  }

  datatype RunnerPc =
    | AtTop                          // about to act on its snapshot
    | NeedsSecretDelete              // 2a done
    | Purging(todo: seq<string>)     // inventory listed, these entries to go
    | NeedsSave(completed: nat)      // every external operation of this step done
    | Saved                          // checkpoint attempted, about to re-read

  /** A cascade attempt; `passes` counts the completed passes of its loop. */
  datatype Runner = Runner(snap: Row, passes: nat, pc: RunnerPc)

  /** How a call ends: answered, failed without effect, or taken effect without an answer. */
  datatype Fate = Done | Refused | Unanswered

  datatype Operation =
    | DeletesCapp(key: Key)
    | DeletesSecret(key: Key)
    | ListsImages(found: set<string>)
    | DeletesImage(entry: string)
    | Archives(actor: Actor)

  /** A cascade runner's external call. */
  datatype Call = Call(op: Operation, fate: Fate)

  /** The last four fields are history no step reads. `lastAccepted`: the image of the latest accepted
      CAPP call. `driftLogged`: a "CAPP ahead of row" warning was logged. `lostCalls`: the
      `calledAt` of the deliveries that ended with CAPP resources still to tear down. `journal`: the runners' calls. */
  datatype State = State(
    core: Core,
    world: World,
    edits: map<nat, EditActor>,
    deliveries: map<nat, Delivery>,
    runners: map<nat, Runner>,
    lastAccepted: Option<Image>,
    driftLogged: bool,
    lostCalls: set<nat>,
    journal: seq<Call>)
  {
    function Row(): Row { core.db.row }
  }

  datatype EditStep =
    | Claim(data: AutomationIn, actor: Actor, deadline: Deadline)
    | CommitScript(sha: Sha)
    | FailCommit(landed: bool)
    | Finish
    | Release
    | CrashEdit

  datatype DeliveryStep =
    | Admit(event: CiWebhook)
    | RecordFailure
    | CallCapp(accepted: bool)
    | CommitBuild(recorded: bool)
    | TearDownCapp(fate: Fate)
    | TearDownSecret(fate: Fate)
    | CrashDelivery

  datatype RunnerStep =
    | Start
    | RunDeleteCapp(fate: Fate)
    | RunDeleteSecret(fate: Fate)
    | RunList(entries: seq<string>, fate: Fate)
    | RunDeleteImage(fate: Fate)
    | RunRelist(fate: Fate)
    | RunArchive(fate: Fate)
    | Save(fate: Fate)
    | Reread
    | Stop

  /** Requests that are one transaction, and what the environment does. */
  datatype DirectStep =
    | Toggle(enable: bool, actor: Actor)
    | BeginDelete(actor: Actor)
    | ReleaseLock(clearsSha: bool)
    | PushImage(entry: string)

  datatype Step =
    | EditBy(eid: nat, edit: EditStep)
    | DeliveryBy(did: nat, delivery: DeliveryStep)
    | RunnerBy(rid: nat, runner: RunnerStep)
    | Direct(direct: DirectStep)

  // --- creation ---------------------------------------------------------------

  function Born(id: Uuid, tenant: string, data: AutomationIn, actor: Actor, sha: Sha, deadline: Deadline,
                world: World): State
  {
    State(Core(Db(CreatedRow(id, tenant, data, actor, sha, deadline), [Revision(Create(sha), None, actor)]),
               {sha}, {deadline}, None),
          CommitFile(world, ScriptPath(id), data.script, "create " + data.name + " (" + id.text + ")"),
          map[], map[], map[], None, false, {}, [])
  }

  /** A row just created: nothing in CAPP carries its name yet. */
  ghost predicate Init(st: State) {
    exists id, tenant, data, actor, sha, deadline, world ::
      Serving(world, CappName(id)) == {} && st == Born(id, tenant, data, actor, sha, deadline, world)
  }

  // --- edits --------------------------------------------------------------------

  function WithEdit(st: State, eid: nat, e: EditActor): State { st.(edits := st.edits[eid := e]) }
  function WithoutEdit(st: State, eid: nat): State { st.(edits := st.edits - {eid}) }

  function DoClaim(st: State, eid: nat, data: AutomationIn, actor: Actor, deadline: Deadline): State {
    WithEdit(st.(core := ClaimCore(st.core, deadline)), eid,
             EditActor(ClaimOf(st.Row(), deadline), data, actor, Committing, st.Row(), st.core.Built()))
  }

  function DoCommitScript(st: State, eid: nat, sha: Sha): State
    requires eid in st.edits
  {
    var e := st.edits[eid];
    WithEdit(st.(core := st.core.(shas := st.core.shas + {sha}), world := ScriptCommitted(st, e)),
             eid, e.(phase := Committed(sha)))
  }

  function ScriptCommitted(st: State, e: EditActor): World {
    CommitFile(st.world, ScriptPath(st.Row().id), e.data.script, "edit " + e.data.name + " (" + st.Row().id.text + ")")
  }

  function DoFailCommit(st: State, eid: nat, landed: bool): State
    requires eid in st.edits
  {
    var e := st.edits[eid];
    WithEdit(st.(world := if landed then ScriptCommitted(st, e) else st.world), eid, e.(phase := CommitFailed))
  }

  function ClaimCore(c: Core, deadline: Deadline): Core {
    WithRow(c, Claimed(c.db.row, deadline)).(deadlines := c.deadlines + {deadline})
  }

  /** Written only while the claim is still the edit's own; superseded otherwise. */
  function FinishCore(c: Core, e: EditActor): Core
    requires e.phase.Committed?
  {
    if Holds(c.db.row, e.claim.deadline) then c.(db := FinishedEdit(c.db, e.data, e.actor, e.phase.sha)) else c
  }

  function ReleaseCore(c: Core, e: EditActor): Core { WithRow(c, Released(c.db.row, e.claim)) }

  // --- deliveries ------------------------------------------------------------------

  function WithDelivery(st: State, did: nat, d: Delivery): State { st.(deliveries := st.deliveries[did := d]) }
  function WithoutDelivery(st: State, did: nat): State { st.(deliveries := st.deliveries - {did}) }

  /** Gone after its CAPP call, before it recorded the build or tore it down. */
  function Lost(st: State, did: nat): State
    requires did in st.deliveries
  {
    WithoutDelivery(st.(lostCalls := st.lostCalls + {st.deliveries[did].calledAt}), did)
  }

  /** A failure is re-admitted under the row lock before it is written. */
  function FailureCore(c: Core, sha: Sha): Core {
    if Admission(c.db.row, sha).None? then c.(db := FailureRecorded(c.db, sha)) else c
  }

  function DeploymentFor(target: Row): CappDeployment {
    CappDeployment(CappName(target.id), DeploymentUrl(target.namespace, target.id), target.namespace)
  }

  /** The CAPP call: create on a first build, roll out afterwards; a failed one changes nothing. */
  function DoCallCapp(st: State, did: nat, accepted: bool): State
    requires did in st.deliveries && st.deliveries[did].event.outcome.Success?
  {
    var d := st.deliveries[did];
    var image := d.event.outcome.image;
    if !accepted then WithoutDelivery(st, did)
    else if d.target.cappDeploymentId.None? then
      WithDelivery(st.(world := CreateDeployment(st.world, d.target.id, d.target.namespace, image),
                       lastAccepted := Some(image)), did,
                   d.(phase := Accepted(Some(DeploymentFor(d.target))), calledAt := |st.journal|))
    else
      WithDelivery(st.(world := Rollout(st.world, d.target.cappDeploymentId.value, image),
                       lastAccepted := Some(image)), did,
                   d.(phase := Accepted(None), calledAt := |st.journal|))
  }

  /** The commit-time re-check under the row lock: cut over, tear down, or let the drift stand. */
  function DoCommitBuild(st: State, did: nat, recorded: bool): State
    requires did in st.deliveries && st.deliveries[did].InWindow()
  {
    var d := st.deliveries[did];
    var reason := CommitReason(st.core.db, d.event.sha);
    if !recorded then Lost(st.(driftLogged := true), did)
    else if reason.None? then WithoutDelivery(st.(core := CutOverCore(st.core, d.event, d.phase.created)), did)
    else
      var logged := st.(driftLogged := st.driftLogged || st.Row().activeDigest != Some(d.event.outcome.image));
      if reason == Some(RowDeleting) then WithDelivery(logged, did, d.(phase := TearingDownCapp))
      else WithoutDelivery(logged, did)
  }

  function DoTearDownCapp(st: State, did: nat, fate: Fate): State
    requires did in st.deliveries
  {
    var d := st.deliveries[did];
    var key := Key(d.target.namespace, CappNameFor(d.target));
    var after := st.(world := if fate.Refused? then st.world else DeleteCapp(st.world, key));
    if fate.Done? then WithDelivery(after, did, d.(phase := TearingDownSecret))
    else Lost(after, did)
  }

  function DoTearDownSecret(st: State, did: nat, fate: Fate): State
    requires did in st.deliveries
  {
    var d := st.deliveries[did];
    var key := Key(d.target.namespace, RunAuthSecretName(d.target.id));
    if fate.Refused? then Lost(st, did)
    else WithoutDelivery(st.(world := DeleteSecret(st.world, key)), did)
  }

  // --- cascade runners -------------------------------------------------------------

  /** At the top of the loop with a snapshot that says `completed` was the last step. */
  predicate AtStep(r: Runner, completed: nat) {
    r.pc.AtTop? && r.snap.matching.Deleting? && StepOf(r.snap) == completed
  }

  /** One external call of runner `rid`: an error ends the attempt where it stands. */
  function RunnerCall(st: State, rid: nat, op: Operation, effect: World, fate: Fate, next: RunnerPc): State
    requires rid in st.runners
  {
    st.(world := if fate.Refused? then st.world else effect,
        journal := st.journal + [Call(op, fate)],
        runners := if fate.Done? then st.runners[rid := st.runners[rid].(pc := next)] else st.runners - {rid})
  }

  function DoRunDeleteCapp(st: State, rid: nat, fate: Fate): State
    requires rid in st.runners
  {
    var snap := st.runners[rid].snap;
    var key := Key(snap.namespace, CappNameFor(snap));
    RunnerCall(st, rid, DeletesCapp(key), DeleteCapp(st.world, key), fate, NeedsSecretDelete)
  }

  function DoRunDeleteSecret(st: State, rid: nat, fate: Fate): State
    requires rid in st.runners
  {
    var snap := st.runners[rid].snap;
    var key := Key(snap.namespace, RunAuthSecretName(snap.id));
    RunnerCall(st, rid, DeletesSecret(key), DeleteSecret(st.world, key), fate, NeedsSave(STEP_CAPP_RESOURCES_DELETED))
  }

  function DoRunList(st: State, rid: nat, entries: seq<string>, fate: Fate): State
    requires rid in st.runners
  {
    RunnerCall(st, rid, ListsImages(set e | e in entries), st.world, fate, Purging(entries))
  }

  function DoRunDeleteImage(st: State, rid: nat, fate: Fate): State
    requires rid in st.runners && st.runners[rid].pc.Purging? && st.runners[rid].pc.todo != []
  {
    var r := st.runners[rid];
    RunnerCall(st, rid, DeletesImage(r.pc.todo[0]), DeleteImage(st.world, r.snap.id, r.pc.todo[0]), fate,
               Purging(r.pc.todo[1..]))
  }

  /** Only an inventory seen empty lets the step be saved; a late image ends the attempt. */
  function DoRunRelist(st: State, rid: nat, fate: Fate): State
    requires rid in st.runners
  {
    var remaining := Inventory(st.world, st.runners[rid].snap.id);
    var asked := RunnerCall(st, rid, ListsImages(remaining), st.world, fate, NeedsSave(STEP_IMAGES_DELETED));
    if remaining == {} then asked else asked.(runners := st.runners - {rid})
  }

  function DoRunArchive(st: State, rid: nat, fate: Fate): State
    requires rid in st.runners
  {
    var snap := st.runners[rid].snap;
    RunnerCall(st, rid, Archives(snap.updatedBy), Archive(st.world, snap.id, snap.updatedBy), fate,
               NeedsSave(STEP_SCRIPT_ARCHIVED))
  }

  /** The checkpoint this runner writes next, if it has nothing left to do before it. */
  function NextSave(r: Runner): Option<nat> {
    if r.pc.NeedsSave? then Some(r.pc.completed)
    else if !r.pc.AtTop? || !r.snap.matching.Deleting? then None
    else if StepOf(r.snap) == STEP_SCRIPT_ARCHIVED then Some(STEP_DELETED)
    else if StepOf(r.snap) == 0 then Some(STEP_MARKED_DELETING)
    else None
  }

  function SaveCore(c: Core, completed: nat): Core
    requires completed >= 1
  {
    WithRow(c, Checkpointed(c.db.row, completed))
  }

  /** Won or lost, an answered compare-and-set sends the runner to re-read the row. */
  function DoSave(st: State, rid: nat, fate: Fate): State
    requires rid in st.runners && NextSave(st.runners[rid]).Some? && NextSave(st.runners[rid]).value >= 1
  {
    var r := st.runners[rid];
    st.(core := if fate.Refused? then st.core else SaveCore(st.core, NextSave(r).value),
        runners := if fate.Done? then st.runners[rid := r.(pc := Saved)] else st.runners - {rid})
  }

  function DoReread(st: State, rid: nat): State
    requires rid in st.runners
  {
    st.(runners := st.runners[rid := Runner(st.Row(), st.runners[rid].passes + 1, AtTop)])
  }

  // --- the step relation --------------------------------------------------------------

  predicate EditEnabled(st: State, eid: nat, s: EditStep) {
    match s
    case Claim(data, _, deadline) =>
      eid !in st.edits && deadline !in st.core.deadlines && ClaimRefusal(st.Row(), data).None?
    case CommitScript(sha) => eid in st.edits && st.edits[eid].phase.Committing? && sha !in st.core.shas
    case FailCommit(_) => eid in st.edits && st.edits[eid].phase.Committing?
    case Finish => eid in st.edits && st.edits[eid].phase.Committed?
    case Release => eid in st.edits && st.edits[eid].phase.CommitFailed?
    case CrashEdit => eid in st.edits
  }

  function EditApply(st: State, eid: nat, s: EditStep): State
    requires EditEnabled(st, eid, s)
  {
    match s
    case Claim(data, actor, deadline) => DoClaim(st, eid, data, actor, deadline)
    case CommitScript(sha) => DoCommitScript(st, eid, sha)
    case FailCommit(landed) => DoFailCommit(st, eid, landed)
    case Finish => WithoutEdit(st.(core := FinishCore(st.core, st.edits[eid])), eid)
    case Release => WithoutEdit(st.(core := ReleaseCore(st.core, st.edits[eid])), eid)
    case CrashEdit => WithoutEdit(st, eid)
  }

  predicate DeliveryEnabled(st: State, did: nat, s: DeliveryStep) {
    if s.Admit? then
      && did !in st.deliveries
      && Admission(st.Row(), s.event.sha).None?
      && (s.event.outcome.Success? ==> IsDigestPinned(s.event.outcome.image.reference))
    else
      && did in st.deliveries
      && var d := st.deliveries[did];
      match s
      case RecordFailure => d.phase.Admitted? && d.event.outcome.Failed?
      case CallCapp(accepted) =>
        && d.phase.Admitted? && d.event.outcome.Success?
        // A rollout needs a deployment to roll out.
        && (accepted && d.target.cappDeploymentId.Some? ==> Serving(st.world, d.target.cappDeploymentId.value) != {})
      case CommitBuild(_) => d.InWindow()
      case TearDownCapp(_) => d.phase.TearingDownCapp?
      case TearDownSecret(_) => d.phase.TearingDownSecret?
      case _ => true
  }

  function DeliveryApply(st: State, did: nat, s: DeliveryStep): State
    requires DeliveryEnabled(st, did, s)
  {
    match s
    case Admit(event) => WithDelivery(st, did, Delivery(event, st.Row(), Admitted, 0))
    case RecordFailure => WithoutDelivery(st.(core := FailureCore(st.core, st.deliveries[did].event.sha)), did)
    case CallCapp(accepted) => DoCallCapp(st, did, accepted)
    case CommitBuild(recorded) => DoCommitBuild(st, did, recorded)
    case TearDownCapp(fate) => DoTearDownCapp(st, did, fate)
    case TearDownSecret(fate) => DoTearDownSecret(st, did, fate)
    case CrashDelivery => if st.deliveries[did].phase.Admitted? then WithoutDelivery(st, did) else Lost(st, did)
  }

  predicate RunnerEnabled(st: State, rid: nat, s: RunnerStep) {
    if s.Start? then rid !in st.runners && st.Row().matching.InDeletion()
    else
      && rid in st.runners
      && var r := st.runners[rid];
      match s
      case RunDeleteCapp(_) => AtStep(r, STEP_MARKED_DELETING)
      case RunDeleteSecret(_) => r.pc.NeedsSecretDelete?
      case RunList(entries, _) =>
        AtStep(r, STEP_CAPP_RESOURCES_DELETED) && (set e | e in entries) == Inventory(st.world, r.snap.id)
      case RunDeleteImage(_) => r.pc.Purging? && r.pc.todo != []
      case RunRelist(_) => r.pc.Purging? && r.pc.todo == []
      case RunArchive(_) => AtStep(r, STEP_IMAGES_DELETED)
      case Save(_) => NextSave(r).Some? && NextSave(r).value >= 1
      case Reread => r.pc.Saved?
      case _ => true
  }

  function RunnerApply(st: State, rid: nat, s: RunnerStep): State
    requires RunnerEnabled(st, rid, s)
  {
    match s
    case Start => st.(runners := st.runners[rid := Runner(st.Row(), 0, AtTop)])
    case RunDeleteCapp(fate) => DoRunDeleteCapp(st, rid, fate)
    case RunDeleteSecret(fate) => DoRunDeleteSecret(st, rid, fate)
    case RunList(entries, fate) => DoRunList(st, rid, entries, fate)
    case RunDeleteImage(fate) => DoRunDeleteImage(st, rid, fate)
    case RunRelist(fate) => DoRunRelist(st, rid, fate)
    case RunArchive(fate) => DoRunArchive(st, rid, fate)
    case Save(fate) => DoSave(st, rid, fate)
    case Reread => DoReread(st, rid)
    case Stop => st.(runners := st.runners - {rid})
  }

  predicate DirectEnabled(st: State, s: DirectStep) {
    match s
    case Toggle(enable, _) => ToggleRefusal(st.Row(), enable).None?
    case BeginDelete(_) => !st.Row().matching.InDeletion() && DeleteRefusal(st.Row()).None?
    case ReleaseLock(_) => st.Row().build.Building?
    case PushImage(_) => true
  }

  function DirectApply(st: State, s: DirectStep): State
    requires DirectEnabled(st, s)
  {
    match s
    case Toggle(enable, actor) => st.(core := st.core.(db := Toggled(st.core.db, enable, actor)))
    case BeginDelete(actor) => st.(core := st.core.(db := DeleteBegun(st.core.db, actor)))
    case ReleaseLock(clearsSha) => st.(core := WithRow(st.core, LockReleased(st.Row(), clearsSha)))
    case PushImage(entry) => st.(world := ExternalWorld.PushImage(st.world, st.Row().id, entry))
  }

  predicate Enabled(st: State, s: Step) {
    match s
    case EditBy(eid, e) => EditEnabled(st, eid, e)
    case DeliveryBy(did, d) => DeliveryEnabled(st, did, d)
    case RunnerBy(rid, r) => RunnerEnabled(st, rid, r)
    case Direct(d) => DirectEnabled(st, d)
  }

  function Apply(st: State, s: Step): State
    requires Enabled(st, s)
  {
    match s
    case EditBy(eid, e) => EditApply(st, eid, e)
    case DeliveryBy(did, d) => DeliveryApply(st, did, d)
    case RunnerBy(rid, r) => RunnerApply(st, rid, r)
    case Direct(d) => DirectApply(st, d)
  }

  /** A run: a created row followed by enabled steps. */
  ghost predicate IsRun(states: seq<State>, steps: seq<Step>) {
    && |states| == |steps| + 1
    && Init(states[0])
    && forall i | 0 <= i < |steps| :: Enabled(states[i], steps[i]) && states[i + 1] == Apply(states[i], steps[i])
  }
}
