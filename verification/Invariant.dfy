/** The inductive invariant of the protocol: the database invariant, and for every actor in
    flight what it may rely on when it comes back to the database. */
module Invariant {
  import opened Domain
  import opened ExternalWorld
  import opened Transactions
  import opened AuditLog
  import opened RowCore
  import opened ImageReferences
  import opened Protocol

  /** While its claim is on the row, an edit finds the row it claimed, toggles aside. */
  predicate EditOk(c: Core, e: EditActor) {
    && e.claim.deadline in c.deadlines
    && e.claim == ClaimOf(e.before, e.claim.deadline)
    && e.before.lockDeadline.None?
    && ClaimRefusal(e.before, e.data).None?
    && (e.phase.Committed? ==> e.phase.sha in c.shas && e.phase.sha !in c.Built().requests)
    && (Holds(c.db.row, e.claim.deadline) ==>
          Untoggled(Claimed(e.before, e.claim.deadline), c.db.row) && c.Built() == e.builds)
  }

  /** While its commit is the newest request, a delivery's snapshot names the row's wallet. */
  predicate DeliveryOk(c: Core, d: Delivery) {
    && Admission(d.target, d.event.sha).None?
    && d.target.id == c.db.row.id
    && (d.event.outcome.Success? ==> IsDigestPinned(d.event.outcome.image.reference))
    && d.event.sha in c.Built().requests
    && (c.Built().Newest() == Some(d.event.sha) ==> d.target.namespace == c.db.row.namespace)
    && (d.target.cappDeploymentId.Some? ==>
          c.db.row.cappDeploymentId == d.target.cappDeploymentId == Some(CappName(d.target.id))
          && d.target.namespace == c.db.row.namespace)
    && (!d.phase.Admitted? ==> d.event.outcome.Success?)
    && (d.phase.Accepted? ==>
          d.phase.created == if d.target.cappDeploymentId.None? then Some(DeploymentFor(d.target)) else None)
    && (d.phase.TearingDownCapp? || d.phase.TearingDownSecret? ==> c.db.row.matching.InDeletion())
  }

  /** A runner's snapshot is the frozen row, at most behind on the cascade's progress. */
  predicate RunnerOk(c: Core, r: Runner) {
    && c.db.row.matching.InDeletion()
    && r.snap.matching.InDeletion()
    && DeletionInv(r.snap)
    && Frozen(r.snap, c.db.row)
    && r.passes < StepOf(r.snap) <= StepOf(c.db.row)
    && (!r.pc.AtTop? ==> r.snap.matching.Deleting?)
    && (r.pc.NeedsSecretDelete? ==> StepOf(r.snap) == STEP_MARKED_DELETING)
    && (r.pc.Purging? ==> StepOf(r.snap) == STEP_CAPP_RESOURCES_DELETED)
    && (r.pc.NeedsSave? ==> r.pc.completed == StepOf(r.snap) + 1)
    && (r.pc.Saved? ==> StepOf(r.snap) < StepOf(c.db.row))
  }

  predicate TokensApart(e: EditActor, f: EditActor) {
    && e.claim.deadline != f.claim.deadline
    && (e.phase.Committed? && f.phase.Committed? ==> e.phase.sha != f.phase.sha)
  }

  ghost predicate EditsInv(st: State) {
    && (forall i | i in st.edits :: EditOk(st.core, st.edits[i]))
    && (forall i, j | i in st.edits && j in st.edits && i != j :: TokensApart(st.edits[i], st.edits[j]))
  }

  ghost predicate DeliveriesInv(st: State) {
    forall i | i in st.deliveries :: DeliveryOk(st.core, st.deliveries[i])
  }

  ghost predicate RunnersInv(st: State) {
    forall i | i in st.runners :: RunnerOk(st.core, st.runners[i])
  }

  ghost predicate Inv(st: State) {
    CoreInv(st.core) && EditsInv(st) && DeliveriesInv(st) && RunnersInv(st)
  }

  // --- actors are stable under everyone else's transactions -------------------------

  lemma EditStable(c: Core, c': Core, owner: Option<Deadline>, request: Option<Sha>, e: EditActor)
    requires CoreInv(c) && Guarantee(c, c', owner, request) && EditOk(c, e)
    requires owner != Some(e.claim.deadline)
    requires request.Some? && e.phase.Committed? ==> request.value != e.phase.sha
    ensures EditOk(c', e)
  {
  }

  lemma DeliveryStable(c: Core, c': Core, owner: Option<Deadline>, request: Option<Sha>, d: Delivery)
    requires CoreInv(c) && Guarantee(c, c', owner, request) && DeliveryOk(c, d)
    requires request.Some? ==> request.value !in c.Built().requests
    ensures DeliveryOk(c', d)
  {
  }

  lemma RunnerStable(c: Core, c': Core, owner: Option<Deadline>, request: Option<Sha>, r: Runner)
    requires CoreInv(c) && Guarantee(c, c', owner, request) && RunnerOk(c, r)
    ensures RunnerOk(c', r)
  {
  }

  // --- every step is a good transaction on the database ------------------------------

  /** The claim under which a step writes, and the build request it adds. */
  function OwnerOf(st: State, s: Step): Option<Deadline> {
    if s.EditBy? && (s.edit.Finish? || s.edit.Release?) && s.eid in st.edits
    then Some(st.edits[s.eid].claim.deadline) else None
  }

  function RequestOf(st: State, s: Step): Option<Sha> {
    if s.EditBy? && s.edit.Finish? && s.eid in st.edits && st.edits[s.eid].phase.Committed?
    then Some(st.edits[s.eid].phase.sha) else None
  }

  lemma SameCoreGood(c: Core, owner: Option<Deadline>, request: Option<Sha>)
    requires CoreInv(c)
    ensures Good(c, c, owner, request)
  {
  }

  lemma FinishEditGood(c: Core, e: EditActor)
    requires CoreInv(c) && EditOk(c, e) && e.phase.Committed?
    ensures Good(c, FinishCore(c, e), Some(e.claim.deadline), Some(e.phase.sha))
  {
    if Holds(c.db.row, e.claim.deadline) {
      FinishGood(c, e.data, e.actor, e.phase.sha, e.claim.deadline);
    } else {
      SameCoreGood(c, Some(e.claim.deadline), Some(e.phase.sha));
    }
  }

  lemma EditGood(st: State, eid: nat, s: EditStep)
    requires CoreInv(st.core) && EditEnabled(st, eid, s) && (eid in st.edits ==> EditOk(st.core, st.edits[eid]))
    ensures Good(st.core, EditApply(st, eid, s).core, OwnerOf(st, EditBy(eid, s)), RequestOf(st, EditBy(eid, s)))
  {
    match s
    case Claim(data, actor, deadline) => ClaimGood(st.core, data, deadline);
    case CommitScript(sha) => NewShaGood(st.core, sha);
    case Finish => FinishEditGood(st.core, st.edits[eid]);
    case Release => ReleaseGood(st.core, st.edits[eid].claim);
    case _ => SameCoreGood(st.core, None, None);
  }

  lemma FailureCoreGood(c: Core, sha: Sha)
    requires CoreInv(c)
    ensures Good(c, FailureCore(c, sha), None, None)
  {
    if Admission(c.db.row, sha).None? {
      FailureGood(c, sha);
    } else {
      SameCoreGood(c, None, None);
    }
  }

  /** What the cutover is owed, the delivery has kept. */
  lemma DeliveryCutsOver(c: Core, d: Delivery)
    requires CoreInv(c) && DeliveryOk(c, d) && d.InWindow() && CommitReason(c.db, d.event.sha).None?
    ensures CutOverOwed(c, d.event, d.phase.created)
    ensures Good(c, CutOverCore(c, d.event, d.phase.created), None, None)
  {
    NewestIsReplayed(c.db.log);
    PinnedIsNotBlank(d.event.outcome.image.reference);
    CutOverGood(c, d.event, d.phase.created);
  }

  lemma DeliveryGood(st: State, did: nat, s: DeliveryStep)
    requires CoreInv(st.core) && DeliveryEnabled(st, did, s)
    requires did in st.deliveries ==> DeliveryOk(st.core, st.deliveries[did])
    ensures Good(st.core, DeliveryApply(st, did, s).core, None, None)
  {
    if s.RecordFailure? {
      FailureCoreGood(st.core, st.deliveries[did].event.sha);
    } else if s.CommitBuild? && s.recorded && CommitReason(st.core.db, st.deliveries[did].event.sha).None? {
      DeliveryCutsOver(st.core, st.deliveries[did]);
    } else {
      SameCoreGood(st.core, None, None);
    }
  }

  lemma RunnerGood(st: State, rid: nat, s: RunnerStep)
    requires CoreInv(st.core) && RunnerEnabled(st, rid, s)
    requires rid in st.runners ==> RunnerOk(st.core, st.runners[rid])
    ensures Good(st.core, RunnerApply(st, rid, s).core, None, None)
  {
    if s.Save? && !s.fate.Refused? {
      CheckpointGood(st.core, NextSave(st.runners[rid]).value);
    } else {
      SameCoreGood(st.core, None, None);
    }
  }

  lemma DirectGood(st: State, s: DirectStep)
    requires CoreInv(st.core) && DirectEnabled(st, s)
    ensures Good(st.core, DirectApply(st, s).core, None, None)
  {
    match s
    case Toggle(enable, actor) => ToggleGood(st.core, enable, actor);
    case BeginDelete(actor) => DeleteGood(st.core, actor);
    case ReleaseLock(clearsSha) => LockReleaseGood(st.core, clearsSha);
    case PushImage(_) => SameCoreGood(st.core, None, None);
  }

  lemma StepGood(st: State, s: Step)
    requires Inv(st) && Enabled(st, s)
    ensures Good(st.core, Apply(st, s).core, OwnerOf(st, s), RequestOf(st, s))
  {
    match s
    case EditBy(eid, e) => EditGood(st, eid, e);
    case DeliveryBy(did, d) => DeliveryGood(st, did, d);
    case RunnerBy(rid, r) => RunnerGood(st, rid, r);
    case Direct(d) => DirectGood(st, d);
  }

  // --- every step keeps the actors ------------------------------------------------------

  /** Everyone but the acting edit finds its promises kept. */
  lemma OtherEditsStable(st: State, c': Core, owner: Option<Deadline>, request: Option<Sha>, acting: set<nat>)
    requires CoreInv(st.core) && EditsInv(st) && Guarantee(st.core, c', owner, request)
    requires forall i | i in st.edits && i !in acting ::
      && owner != Some(st.edits[i].claim.deadline)
      && (request.Some? && st.edits[i].phase.Committed? ==> request.value != st.edits[i].phase.sha)
    ensures forall i | i in st.edits && i !in acting :: EditOk(c', st.edits[i])
  {
    forall i | i in st.edits && i !in acting ensures EditOk(c', st.edits[i]) {
      EditStable(st.core, c', owner, request, st.edits[i]);
    }
  }

  lemma ClaimedEditOk(c: Core, data: AutomationIn, actor: Actor, deadline: Deadline)
    requires CoreInv(c) && ClaimRefusal(c.db.row, data).None?
    ensures EditOk(ClaimCore(c, deadline),
                   EditActor(ClaimOf(c.db.row, deadline), data, actor, Committing, c.db.row, c.Built()))
  {
  }

  lemma ActingEditOk(st: State, eid: nat, s: EditStep)
    requires CoreInv(st.core) && EditEnabled(st, eid, s) && (eid in st.edits ==> EditOk(st.core, st.edits[eid]))
    ensures eid in EditApply(st, eid, s).edits ==> EditOk(EditApply(st, eid, s).core, EditApply(st, eid, s).edits[eid])
  {
    if s.Claim? {
      ClaimedEditOk(st.core, s.data, s.actor, s.deadline);
    } else if s.CommitScript? {
      assert s.sha !in st.core.Built().requests;
    }
  }

  /** Nobody else holds the acting edit's tokens. */
  lemma ActingTokensFresh(st: State, eid: nat, s: EditStep, i: nat)
    requires EditEnabled(st, eid, s) && i in st.edits && i != eid && EditOk(st.core, st.edits[i])
    requires eid in st.edits ==> TokensApart(st.edits[eid], st.edits[i])
    ensures eid in EditApply(st, eid, s).edits ==> TokensApart(EditApply(st, eid, s).edits[eid], st.edits[i])
  {
  }

  lemma OtherEditsSame(st: State, eid: nat, s: EditStep)
    requires EditEnabled(st, eid, s)
    ensures EditApply(st, eid, s).edits.Keys <= st.edits.Keys + {eid}
    ensures forall i | i in st.edits && i != eid ::
      i in EditApply(st, eid, s).edits && EditApply(st, eid, s).edits[i] == st.edits[i]
  {
  }

  /** One edit acts: the others are as they were and still served by the new database. */
  lemma EditsJoin(st: State, st': State, eid: nat)
    requires EditsInv(st)
    requires st'.edits.Keys <= st.edits.Keys + {eid}
    requires forall i | i in st.edits && i != eid ::
      i in st'.edits && st'.edits[i] == st.edits[i] && EditOk(st'.core, st.edits[i])
    requires eid in st'.edits ==> EditOk(st'.core, st'.edits[eid])
    requires eid in st'.edits ==> forall i | i in st.edits && i != eid :: TokensApart(st'.edits[eid], st.edits[i])
    ensures EditsInv(st')
  {
  }

  lemma EditsKept(st: State, eid: nat, s: EditStep)
    requires CoreInv(st.core) && EditsInv(st) && EditEnabled(st, eid, s)
    requires Guarantee(st.core, EditApply(st, eid, s).core, OwnerOf(st, EditBy(eid, s)), RequestOf(st, EditBy(eid, s)))
    ensures EditsInv(EditApply(st, eid, s))
  {
    OtherEditsStable(st, EditApply(st, eid, s).core, OwnerOf(st, EditBy(eid, s)), RequestOf(st, EditBy(eid, s)), {eid});
    ActingEditOk(st, eid, s);
    OtherEditsSame(st, eid, s);
    forall i | i in st.edits && i != eid
      ensures eid in EditApply(st, eid, s).edits ==> TokensApart(EditApply(st, eid, s).edits[eid], st.edits[i])
    {
      ActingTokensFresh(st, eid, s, i);
    }
    EditsJoin(st, EditApply(st, eid, s), eid);
  }

  lemma DeliveriesStable(st: State, c': Core, owner: Option<Deadline>, request: Option<Sha>)
    requires CoreInv(st.core) && DeliveriesInv(st) && Guarantee(st.core, c', owner, request)
    requires request.Some? ==> request.value !in st.core.Built().requests
    ensures forall i | i in st.deliveries :: DeliveryOk(c', st.deliveries[i])
  {
    forall i | i in st.deliveries ensures DeliveryOk(c', st.deliveries[i]) {
      DeliveryStable(st.core, c', owner, request, st.deliveries[i]);
    }
  }

  lemma AdmittedOk(c: Core, event: CiWebhook)
    requires CoreInv(c) && Admission(c.db.row, event.sha).None?
    requires event.outcome.Success? ==> IsDigestPinned(event.outcome.image.reference)
    ensures DeliveryOk(c, Delivery(event, c.db.row, Admitted, 0))
  {
    assert event.sha == c.Built().requests[|c.Built().requests| - 1];
  }

  lemma ActingDeliveryOk(st: State, did: nat, s: DeliveryStep)
    requires CoreInv(st.core) && DeliveryEnabled(st, did, s)
    requires did in st.deliveries ==> DeliveryOk(st.core, st.deliveries[did])
    ensures var st' := DeliveryApply(st, did, s);
      did in st'.deliveries ==> st'.core == st.core && DeliveryOk(st.core, st'.deliveries[did])
  {
    if s.Admit? {
      AdmittedOk(st.core, s.event);
    }
  }

  lemma OtherDeliveriesSame(st: State, did: nat, s: DeliveryStep)
    requires DeliveryEnabled(st, did, s)
    ensures forall i | i in DeliveryApply(st, did, s).deliveries && i != did ::
      i in st.deliveries && DeliveryApply(st, did, s).deliveries[i] == st.deliveries[i]
  {
  }

  lemma DeliveriesKept(st: State, did: nat, s: DeliveryStep)
    requires CoreInv(st.core) && DeliveriesInv(st) && DeliveryEnabled(st, did, s)
    requires Guarantee(st.core, DeliveryApply(st, did, s).core, None, None)
    ensures DeliveriesInv(DeliveryApply(st, did, s))
  {
    DeliveriesStable(st, DeliveryApply(st, did, s).core, None, None);
    ActingDeliveryOk(st, did, s);
    OtherDeliveriesSame(st, did, s);
  }

  lemma RunnersStable(st: State, c': Core, owner: Option<Deadline>, request: Option<Sha>)
    requires CoreInv(st.core) && RunnersInv(st) && Guarantee(st.core, c', owner, request)
    ensures forall i | i in st.runners :: RunnerOk(c', st.runners[i])
  {
    forall i | i in st.runners ensures RunnerOk(c', st.runners[i]) {
      RunnerStable(st.core, c', owner, request, st.runners[i]);
    }
  }

  /** Won or lost, the compare-and-set leaves the row past the step the runner observed. */
  lemma SaveRaises(c: Core, r: Runner)
    requires CoreInv(c) && RunnerOk(c, r) && NextSave(r).Some? && NextSave(r).value >= 1
    ensures NextSave(r) == Some(StepOf(r.snap) + 1)
    ensures StepOf(r.snap) < StepOf(SaveCore(c, NextSave(r).value).db.row)
    ensures RunnerOk(SaveCore(c, NextSave(r).value), r.(pc := Saved))
  {
  }

  lemma ActingRunnerOk(st: State, rid: nat, s: RunnerStep)
    requires CoreInv(st.core) && RunnerEnabled(st, rid, s)
    requires rid in st.runners ==> RunnerOk(st.core, st.runners[rid])
    ensures var st' := RunnerApply(st, rid, s);
      rid in st'.runners ==> RunnerOk(st'.core, st'.runners[rid])
  {
    if s.Save? {
      SaveRaises(st.core, st.runners[rid]);
    }
  }

  lemma OtherRunnersSame(st: State, rid: nat, s: RunnerStep)
    requires RunnerEnabled(st, rid, s)
    ensures forall i | i in RunnerApply(st, rid, s).runners && i != rid ::
      i in st.runners && RunnerApply(st, rid, s).runners[i] == st.runners[i]
  {
  }

  lemma RunnersKept(st: State, rid: nat, s: RunnerStep)
    requires CoreInv(st.core) && RunnersInv(st) && RunnerEnabled(st, rid, s)
    requires Guarantee(st.core, RunnerApply(st, rid, s).core, None, None)
    ensures RunnersInv(RunnerApply(st, rid, s))
  {
    RunnersStable(st, RunnerApply(st, rid, s).core, None, None);
    ActingRunnerOk(st, rid, s);
    OtherRunnersSame(st, rid, s);
  }

  lemma EditKeepsInv(st: State, eid: nat, s: EditStep)
    requires Inv(st) && EditEnabled(st, eid, s)
    ensures Inv(EditApply(st, eid, s))
  {
    var owner, request := OwnerOf(st, EditBy(eid, s)), RequestOf(st, EditBy(eid, s));
    EditGood(st, eid, s);
    EditsKept(st, eid, s);
    DeliveriesStable(st, EditApply(st, eid, s).core, owner, request);
    RunnersStable(st, EditApply(st, eid, s).core, owner, request);
  }

  /** A step that leaves the edits alone and keeps its own kind of actor keeps everything. */
  lemma Join(st: State, st': State)
    requires Inv(st) && Good(st.core, st'.core, None, None) && st'.edits == st.edits
    requires st'.deliveries == st.deliveries || DeliveriesInv(st')
    requires st'.runners == st.runners || RunnersInv(st')
    ensures Inv(st')
  {
    OtherEditsStable(st, st'.core, None, None, {});
    DeliveriesStable(st, st'.core, None, None);
    RunnersStable(st, st'.core, None, None);
  }

  lemma DeliveryFrame(st: State, did: nat, s: DeliveryStep)
    requires DeliveryEnabled(st, did, s)
    ensures var st' := DeliveryApply(st, did, s);
      st'.edits == st.edits && st'.runners == st.runners && st'.journal == st.journal
  {
    match s
    case Admit(_) =>
    case RecordFailure =>
    case CallCapp(_) =>
    case CommitBuild(_) =>
    case TearDownCapp(_) =>
    case TearDownSecret(_) =>
    case CrashDelivery =>
  }

  lemma DeliveryKeepsInv(st: State, did: nat, s: DeliveryStep)
    requires Inv(st) && DeliveryEnabled(st, did, s)
    ensures Inv(DeliveryApply(st, did, s))
  {
    DeliveryGood(st, did, s);
    DeliveriesKept(st, did, s);
    DeliveryFrame(st, did, s);
    Join(st, DeliveryApply(st, did, s));
  }

  lemma RunnerFrame(st: State, rid: nat, s: RunnerStep)
    requires RunnerEnabled(st, rid, s)
    ensures var st' := RunnerApply(st, rid, s);
      && st'.edits == st.edits && st'.deliveries == st.deliveries
      && st'.driftLogged == st.driftLogged && st'.lostCalls == st.lostCalls
      && st'.lastAccepted == st.lastAccepted
  {
  }

  lemma RunnerKeepsInv(st: State, rid: nat, s: RunnerStep)
    requires Inv(st) && RunnerEnabled(st, rid, s)
    ensures Inv(RunnerApply(st, rid, s))
  {
    RunnerGood(st, rid, s);
    RunnersKept(st, rid, s);
    RunnerFrame(st, rid, s);
    Join(st, RunnerApply(st, rid, s));
  }

  lemma DirectKeepsInv(st: State, s: DirectStep)
    requires Inv(st) && DirectEnabled(st, s)
    ensures Inv(DirectApply(st, s))
  {
    DirectGood(st, s);
    Join(st, DirectApply(st, s));
  }

  lemma StepKeepsInv(st: State, s: Step)
    requires Inv(st) && Enabled(st, s)
    ensures Inv(Apply(st, s))
  {
    match s
    case EditBy(eid, e) => EditKeepsInv(st, eid, e);
    case DeliveryBy(did, d) => DeliveryKeepsInv(st, did, d);
    case RunnerBy(rid, r) => RunnerKeepsInv(st, rid, r);
    case Direct(d) => DirectKeepsInv(st, d);
  }

  lemma InitKeepsInv(st: State)
    requires Init(st)
    ensures Inv(st)
  {
    var id, tenant, data, actor, sha, deadline, world :|
      Serving(world, CappName(id)) == {} && st == Born(id, tenant, data, actor, sha, deadline, world);
    CreatedGood(id, tenant, data, actor, sha, deadline);
  }

  /** Every state of every run satisfies the invariant. */
  lemma {:induction false} RunKeepsInv(states: seq<State>, steps: seq<Step>, i: nat)
    requires IsRun(states, steps) && i < |states|
    ensures Inv(states[i])
    decreases i
  {
    if i == 0 {
      InitKeepsInv(states[0]);
    } else {
      RunKeepsInv(states, steps, i - 1);
      StepKeepsInv(states[i - 1], steps[i - 1]);
    }
  }
}
