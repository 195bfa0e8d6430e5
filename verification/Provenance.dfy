/** Which step wrote each column, over whole runs. */
module Provenance {
  import opened Domain
  import opened ExternalWorld
  import opened Transactions
  import opened RowCore
  import opened Protocol
  import opened Invariant
  import opened RowTheorems
  import opened CascadeOrder
  import opened Schedules

  /** The step is the finish of an edit whose claim is still on the row. */
  predicate EditLands(st: State, s: Step) {
    && s.EditBy? && s.edit.Finish? && s.eid in st.edits && st.edits[s.eid].phase.Committed?
    && st.Row().build.Building? && st.Row().lockDeadline == Some(st.edits[s.eid].claim.deadline)
  }

  /** Who signs the row, if the step is a human's. */
  function SignedBy(st: State, s: Step): Option<Actor> {
    if EditLands(st, s) then Some(st.edits[s.eid].actor)
    else if s.Direct? && s.direct.Toggle? then Some(s.direct.actor)
    else if s.Direct? && s.direct.BeginDelete? then Some(s.direct.actor)
    else None
  }

  ghost predicate BuildColumns(st: State, s: Step, st': State) {
    var row, row' := st.Row(), st'.Row();
    if CutsOver(st, s) then
      var d := st.deliveries[s.did];
      && row'.activeDigest == Some(d.event.outcome.image)
      && row'.contractVersion == Some(d.event.outcome.contractVersion)
      && (d.phase.created.None? ==>
            row'.cappDeploymentId == row.cappDeploymentId && row'.deploymentUrl == row.deploymentUrl)
      && (d.phase.created.Some? ==>
            && row'.cappDeploymentId == Some(d.phase.created.value.deploymentId)
            && row'.deploymentUrl == Some(d.phase.created.value.deploymentUrl))
    else
      && row'.activeDigest == row.activeDigest && row'.contractVersion == row.contractVersion
      && row'.cappDeploymentId == row.cappDeploymentId && row'.deploymentUrl == row.deploymentUrl
  }

  ghost predicate EditColumns(st: State, s: Step, st': State) {
    if EditLands(st, s) then
      st'.Row().namespace == st.edits[s.eid].data.namespace && StoredAs(st'.Row().definition, st.edits[s.eid].data)
    else st'.Row().namespace == st.Row().namespace && st'.Row().definition == st.Row().definition
  }

  /** What every step does to the columns: a recorded build writes the build columns, a landed edit the
      definition and the wallet, a human's step the signature, and the identity is never written. */
  ghost predicate Columns(st: State, s: Step, st': State) {
    && st'.Row().id == st.Row().id && st'.Row().tenant == st.Row().tenant && st'.Row().createdBy == st.Row().createdBy
    && BuildColumns(st, s, st') && EditColumns(st, s, st')
    && st'.Row().updatedBy == (if SignedBy(st, s).Some? then SignedBy(st, s).value else st.Row().updatedBy)
  }

  lemma EditWritesColumns(st: State, eid: nat, s: EditStep)
    requires EditEnabled(st, eid, s)
    ensures Columns(st, EditBy(eid, s), EditApply(st, eid, s))
  {
  }

  lemma CommitWritesColumns(st: State, did: nat, recorded: bool)
    requires DeliveryEnabled(st, did, CommitBuild(recorded))
    ensures Columns(st, DeliveryBy(did, CommitBuild(recorded)), DoCommitBuild(st, did, recorded))
  {
  }

  /** A delivery that does not record a success leaves all these columns. */
  lemma QuietDeliveryColumns(st: State, did: nat, s: DeliveryStep)
    requires DeliveryEnabled(st, did, s) && !s.CommitBuild?
    ensures var row' := DeliveryApply(st, did, s).Row();
      row' == st.Row().(build := row'.build, buildingSha := row'.buildingSha, lockDeadline := row'.lockDeadline)
  {
    match s
    case Admit(_) =>
    case RecordFailure =>
    case CallCapp(_) =>
    case TearDownCapp(_) =>
    case TearDownSecret(_) =>
    case CrashDelivery =>
  }

  lemma DeliveryWritesColumns(st: State, did: nat, s: DeliveryStep)
    requires DeliveryEnabled(st, did, s)
    ensures Columns(st, DeliveryBy(did, s), DeliveryApply(st, did, s))
  {
    if s.CommitBuild? {
      CommitWritesColumns(st, did, s.recorded);
    } else {
      QuietDeliveryColumns(st, did, s);
    }
  }

  lemma RunnerWritesColumns(st: State, rid: nat, s: RunnerStep)
    requires RunnerEnabled(st, rid, s)
    ensures Columns(st, RunnerBy(rid, s), RunnerApply(st, rid, s))
  {
  }

  lemma DirectWritesColumns(st: State, s: DirectStep)
    requires DirectEnabled(st, s)
    ensures Columns(st, Direct(s), DirectApply(st, s))
  {
  }

  lemma StepWritesColumns(st: State, s: Step)
    requires Enabled(st, s)
    ensures Columns(st, s, Apply(st, s))
  {
    match s
    case EditBy(eid, e) => EditWritesColumns(st, eid, e);
    case DeliveryBy(did, d) => DeliveryWritesColumns(st, did, d);
    case RunnerBy(rid, r) => RunnerWritesColumns(st, rid, r);
    case Direct(d) => DirectWritesColumns(st, d);
  }

  ghost predicate IsColumnTrace(states: seq<State>, steps: seq<Step>) {
    |states| == |steps| + 1 && forall i | 0 <= i < |steps| :: Columns(states[i], steps[i], states[i + 1])
  }

  lemma RunIsColumnTrace(states: seq<State>, steps: seq<Step>)
    requires IsRun(states, steps)
    ensures IsColumnTrace(states, steps)
  {
    forall i | 0 <= i < |steps| ensures Columns(states[i], steps[i], states[i + 1]) {
      StepWritesColumns(states[i], steps[i]);
    }
  }

  // --- the last build ------------------------------------------------------------------------------

  lemma {:induction false} BuildColumnsStay(states: seq<State>, steps: seq<Step>, k: nat, i: nat)
    requires IsColumnTrace(states, steps) && k <= i && NoCutover(states, steps, k, i)
    ensures states[i].Row().activeDigest == states[k].Row().activeDigest
    ensures states[i].Row().contractVersion == states[k].Row().contractVersion
    ensures states[i].Row().deploymentUrl == states[k].Row().deploymentUrl
    decreases i
  {
    if k < i {
      BuildColumnsStay(states, steps, k, i - 1);
      assert Columns(states[i - 1], steps[i - 1], states[i]);
    }
  }

  /** The row carries the image and the contract version of the last recorded build's own webhook. */
  lemma RowCarriesTheLastBuild(states: seq<State>, steps: seq<Step>, m: nat, i: nat)
    requires IsRun(states, steps) && m < i <= |steps|
    requires CutsOver(states[m], steps[m]) && NoCutover(states, steps, m + 1, i)
    ensures var outcome := states[m].deliveries[steps[m].did].event.outcome;
      && states[i].Row().activeDigest == Some(outcome.image)
      && states[i].Row().contractVersion == Some(outcome.contractVersion)
  {
    RunIsColumnTrace(states, steps);
    assert Columns(states[m], steps[m], states[m + 1]);
    BuildColumnsStay(states, steps, m + 1, i);
  }

  lemma UnbuiltRowCarriesNothing(states: seq<State>, steps: seq<Step>, i: nat)
    requires IsRun(states, steps) && i <= |steps| && NoCutover(states, steps, 0, i)
    ensures states[i].Row().activeDigest == None && states[i].Row().contractVersion == None
    ensures states[i].Row().deploymentUrl == None
  {
    RunIsColumnTrace(states, steps);
    BuildColumnsStay(states, steps, 0, i);
  }

  // --- the last edit -------------------------------------------------------------------------------

  ghost predicate NoEdit(states: seq<State>, steps: seq<Step>, k: nat, i: nat) {
    i <= |steps| <= |states| && forall m | k <= m < i :: !EditLands(states[m], steps[m])
  }

  lemma {:induction false} EditColumnsStay(states: seq<State>, steps: seq<Step>, k: nat, i: nat)
    requires IsColumnTrace(states, steps) && k <= i && NoEdit(states, steps, k, i)
    ensures states[i].Row().namespace == states[k].Row().namespace
    ensures states[i].Row().definition == states[k].Row().definition
    decreases i
  {
    if k < i {
      EditColumnsStay(states, steps, k, i - 1);
      assert Columns(states[i - 1], steps[i - 1], states[i]);
    }
  }

  /** The row carries the whole payload of the last edit that landed. */
  lemma RowCarriesTheLastEdit(states: seq<State>, steps: seq<Step>, m: nat, i: nat)
    requires IsRun(states, steps) && m < i <= |steps|
    requires EditLands(states[m], steps[m]) && NoEdit(states, steps, m + 1, i)
    ensures var data := states[m].edits[steps[m].eid].data;
      states[i].Row().namespace == data.namespace && StoredAs(states[i].Row().definition, data)
  {
    RunIsColumnTrace(states, steps);
    assert Columns(states[m], steps[m], states[m + 1]);
    EditColumnsStay(states, steps, m + 1, i);
  }

  /** Until an edit lands, the row carries the whole payload it was created with. */
  lemma RowCarriesItsCreation(states: seq<State>, steps: seq<Step>, i: nat) returns (data: AutomationIn)
    requires IsRun(states, steps) && i <= |steps| && NoEdit(states, steps, 0, i)
    ensures exists id, tenant, actor, sha, deadline, world ::
      states[0] == Born(id, tenant, data, actor, sha, deadline, world)
    ensures states[i].Row().namespace == data.namespace && StoredAs(states[i].Row().definition, data)
  {
    RunIsColumnTrace(states, steps);
    EditColumnsStay(states, steps, 0, i);
    var id, tenant, d, actor, sha, deadline, world :|
      Serving(world, CappName(id)) == {} && states[0] == Born(id, tenant, d, actor, sha, deadline, world);
    data := d;
  }

  // --- the script in the repository ------------------------------------------------------------------

  /** The step puts an edit's script into the repository, whether or not the answer arrives. */
  predicate CommitsScript(st: State, s: Step) {
    s.EditBy? && s.eid in st.edits && (s.edit.CommitScript? || s.edit == FailCommit(true))
  }

  predicate HoldsScript(w: World, id: Uuid, script: string) {
    id.text + "/script.py" in w.files && w.files[id.text + "/script.py"] == script
  }

  lemma MarkerIsNotTheScript(id: Uuid)
    ensures ArchiveMarkerPath(id) != id.text + "/script.py"
  {
    assert ArchiveMarkerPath(id)[|id.text| + 1] == '.';
    assert (id.text + "/script.py")[|id.text| + 1] == 's';
  }

  ghost predicate ScriptKept(st: State, s: Step, st': State) {
    && st'.Row().id == st.Row().id
    && (CommitsScript(st, s) ==>
          var data := st.edits[s.eid].data;
          && HoldsScript(st'.world, st.Row().id, data.script)
          && st'.world.commits == st.world.commits + ["edit " + data.name + " (" + st.Row().id.text + ")"])
    && (!CommitsScript(st, s) ==>
          forall script | HoldsScript(st.world, st.Row().id, script) :: HoldsScript(st'.world, st.Row().id, script))
  }

  lemma EditKeepsScript(st: State, eid: nat, s: EditStep)
    requires EditEnabled(st, eid, s)
    ensures ScriptKept(st, EditBy(eid, s), EditApply(st, eid, s))
  {
  }

  lemma RunnerKeepsScript(st: State, rid: nat, s: RunnerStep)
    requires RunnerEnabled(st, rid, s) && (rid in st.runners ==> RunnerOk(st.core, st.runners[rid]))
    ensures ScriptKept(st, RunnerBy(rid, s), RunnerApply(st, rid, s))
  {
    MarkerIsNotTheScript(st.Row().id);
  }

  lemma OtherStepKeepsScript(st: State, s: Step)
    requires Enabled(st, s) && (s.DeliveryBy? || s.Direct?)
    ensures Apply(st, s).world.files == st.world.files && Apply(st, s).Row().id == st.Row().id
  {
    match s
    case DeliveryBy(did, d) =>
      DeliveryKeepsFiles(st, did, d);
      DeliveryWritesColumns(st, did, d);
    case Direct(d) => DirectWritesColumns(st, d);
  }

  lemma DeliveryKeepsFiles(st: State, did: nat, s: DeliveryStep)
    requires DeliveryEnabled(st, did, s)
    ensures DeliveryApply(st, did, s).world.files == st.world.files
  {
    match s
    case Admit(_) =>
    case RecordFailure =>
    case CallCapp(_) =>
    case CommitBuild(_) =>
    case TearDownCapp(_) =>
    case TearDownSecret(_) =>
    case CrashDelivery =>
  }

  lemma StepKeepsScript(st: State, s: Step)
    requires RunnersInv(st) && Enabled(st, s)
    ensures ScriptKept(st, s, Apply(st, s))
  {
    match s
    case EditBy(eid, e) => EditKeepsScript(st, eid, e);
    case RunnerBy(rid, r) => RunnerKeepsScript(st, rid, r);
    case _ => OtherStepKeepsScript(st, s);
  }

  lemma {:induction false} ScriptStays(states: seq<State>, steps: seq<Step>, k: nat, i: nat, script: string)
    requires |states| == |steps| + 1 && k <= i <= |steps|
    requires forall m | k <= m < i ::
      ScriptKept(states[m], steps[m], states[m + 1]) && !CommitsScript(states[m], steps[m])
    requires HoldsScript(states[k].world, states[k].Row().id, script)
    ensures HoldsScript(states[i].world, states[i].Row().id, script)
    decreases i
  {
    if k < i {
      ScriptStays(states, steps, k, i - 1, script);
    }
  }

  /** The repository holds the script of the last commit made for the automation, through any deletion. */
  lemma RepositoryHoldsTheLastScript(states: seq<State>, steps: seq<Step>, m: nat, i: nat)
    requires IsRun(states, steps) && m < i <= |steps| && CommitsScript(states[m], steps[m])
    requires forall l | m < l < i :: !CommitsScript(states[l], steps[l])
    ensures HoldsScript(states[i].world, states[i].Row().id, states[m].edits[steps[m].eid].data.script)
  {
    forall l | m <= l < i ensures ScriptKept(states[l], steps[l], states[l + 1]) {
      RunKeepsInv(states, steps, l);
      StepKeepsScript(states[l], steps[l]);
    }
    ScriptStays(states, steps, m + 1, i, states[m].edits[steps[m].eid].data.script);
  }

  /** Until then it holds the script the automation was created with. */
  lemma RepositoryHoldsTheFirstScript(states: seq<State>, steps: seq<Step>, i: nat) returns (data: AutomationIn)
    requires IsRun(states, steps) && i <= |steps|
    requires forall l | 0 <= l < i :: !CommitsScript(states[l], steps[l])
    ensures exists id, tenant, actor, sha, deadline, world ::
      states[0] == Born(id, tenant, data, actor, sha, deadline, world)
    ensures HoldsScript(states[i].world, states[i].Row().id, data.script)
  {
    forall l | 0 <= l < i ensures ScriptKept(states[l], steps[l], states[l + 1]) {
      RunKeepsInv(states, steps, l);
      StepKeepsScript(states[l], steps[l]);
    }
    var id, tenant, d, actor, sha, deadline, world :|
      Serving(world, CappName(id)) == {} && states[0] == Born(id, tenant, d, actor, sha, deadline, world);
    data := d;
    ScriptStays(states, steps, 0, i, data.script);
  }

  // --- the deleter ---------------------------------------------------------------------------------

  /** Every archive call was made in the name of whoever signs the row. */
  ghost predicate ArchivedBySigner(st: State) {
    forall n | 0 <= n < |st.journal| && st.journal[n].op.Archives? :: st.journal[n].op.actor == st.Row().updatedBy
  }

  lemma RunnerKeepsSigner(st: State, rid: nat, s: RunnerStep)
    requires ArchivedBySigner(st) && RunnerEnabled(st, rid, s)
    requires rid in st.runners ==> RunnerOk(st.core, st.runners[rid])
    ensures ArchivedBySigner(RunnerApply(st, rid, s))
  {
    CallIsJournaled(st, rid, s);
    RunnerWritesColumns(st, rid, s);
  }

  lemma StepKeepsSigner(st: State, s: Step)
    requires Inv(st) && ArchivedBySigner(st) && Enabled(st, s)
    requires !st.Row().matching.InDeletion() ==> st.journal == []
    ensures ArchivedBySigner(Apply(st, s))
  {
    if s.RunnerBy? {
      RunnerKeepsSigner(st, s.rid, s.runner);
    } else {
      StepGood(st, s);
      OthersUncalled(st, s);
    }
  }

  lemma {:induction false} SignerKept(states: seq<State>, steps: seq<Step>, i: nat)
    requires IsRun(states, steps) && i < |states|
    ensures ArchivedBySigner(states[i])
    decreases i
  {
    if i > 0 {
      SignerKept(states, steps, i - 1);
      RunKeepsInv(states, steps, i - 1);
      OrderKept(states, steps, i - 1);
      StepKeepsSigner(states[i - 1], steps[i - 1]);
    }
  }

  /** From an admitted DELETE on, the row is signed by whoever sent it, every runner's snapshot too, and every
      archive call of the run is made in that name. */
  lemma DeleterSigns(states: seq<State>, steps: seq<Step>, i: nat, j: nat, actor: Actor)
    requires IsRun(states, steps) && i < j < |states| && steps[i] == Direct(BeginDelete(actor))
    ensures states[j].Row().updatedBy == actor
    ensures forall rid | rid in states[j].runners :: states[j].runners[rid].snap.updatedBy == actor
    ensures forall n | 0 <= n < |states[j].journal| && states[j].journal[n].op.Archives? ::
      states[j].journal[n].op.actor == actor
  {
    RunIsColumnTrace(states, steps);
    assert Columns(states[i], steps[i], states[i + 1]);
    DeletionFreezes(states, steps, i + 1, j);
    SignerKept(states, steps, j);
    forall rid | rid in states[j].runners ensures states[j].runners[rid].snap.updatedBy == actor {
      StaleSnapshotsAreRight(states, steps, j, rid);
    }
  }

  // --- toggles -------------------------------------------------------------------------------------

  /** In every reachable state a toggle is admitted exactly when the row is not in deletion and, to enable, has
      been built; a build in progress never stands in its way. */
  lemma ToggleAdmittedExactly(states: seq<State>, steps: seq<Step>, i: nat, enable: bool, actor: Actor)
    requires IsRun(states, steps) && i < |states|
    ensures DirectEnabled(states[i], Toggle(enable, actor)) <==>
      !states[i].Row().matching.InDeletion() && (enable ==> states[i].Row().activeDigest.Some?)
  {
    RunKeepsInv(states, steps, i);
  }
}
