/** Runs that show hypotheses to be needed. */
module Witnesses {
  import opened Domain
  import opened ExternalWorld
  import opened Transactions
  import opened AuditLog
  import opened RowCore
  import opened ImageReferences
  import opened Protocol
  import opened Invariant
  import opened Agreement
  import opened OutcomeTheorems

  /** A set of states that holds every newborn automation and is closed under steps; with `serial`, under
      serialised ones. */
  ghost predicate Closed(r: iset<State>, serial: bool) {
    && (forall st | Init(st) :: st in r)
    && (forall st, s | st in r && Enabled(st, s) && (serial ==> Serialised(st, s)) :: Apply(st, s) in r)
  }

  /** In every such set. */
  ghost predicate Reachable(st: State, serial: bool) { forall r | Closed(r, serial) :: st in r }

  lemma ReachInit(st: State, serial: bool)
    requires Init(st)
    ensures Reachable(st, serial)
  {
  }

  lemma ReachStep(st: State, s: Step, serial: bool)
    requires Reachable(st, serial) && Enabled(st, s) && (serial ==> Serialised(st, s))
    ensures Reachable(Apply(st, s), serial)
  {
  }

  // --- reachable is at the end of a run ---------------------------------------------------------

  ghost predicate RunTo(states: seq<State>, steps: seq<Step>, st: State, serial: bool) {
    && IsRun(states, steps) && states[|steps|] == st
    && (serial ==> AllSerialised(states, steps))
  }

  ghost predicate AllSerialised(states: seq<State>, steps: seq<Step>) {
    |steps| <= |states| && forall k | 0 <= k < |steps| :: Serialised(states[k], steps[k])
  }

  lemma SerialExtends(states: seq<State>, steps: seq<Step>, st: State, s: Step)
    requires |states| == |steps| + 1 && AllSerialised(states, steps) && Serialised(states[|steps|], s)
    ensures AllSerialised(states + [st], steps + [s])
  {
    var states', steps' := states + [st], steps + [s];
    forall k | 0 <= k < |steps'| ensures Serialised(states'[k], steps'[k]) {
      assert states'[k] == states[k];
    }
  }

  ghost predicate HasRun(st: State, serial: bool) {
    exists states: seq<State>, steps: seq<Step> :: RunTo(states, steps, st, serial)
  }

  lemma RunExtends(states: seq<State>, steps: seq<Step>, s: Step)
    requires IsRun(states, steps) && Enabled(states[|steps|], s)
    ensures IsRun(states + [Apply(states[|steps|], s)], steps + [s])
  {
    var states', steps' := states + [Apply(states[|steps|], s)], steps + [s];
    forall i | 0 <= i < |steps'|
      ensures Enabled(states'[i], steps'[i]) && states'[i + 1] == Apply(states'[i], steps'[i])
    {
      if i < |steps| {
        assert states'[i] == states[i] && states'[i + 1] == states[i + 1] && steps'[i] == steps[i];
      }
    }
  }

  lemma HasRunStep(st: State, s: Step, serial: bool)
    requires HasRun(st, serial) && Enabled(st, s) && (serial ==> Serialised(st, s))
    ensures HasRun(Apply(st, s), serial)
  {
    var states: seq<State>, steps: seq<Step> :| RunTo(states, steps, st, serial);
    RunExtends(states, steps, s);
    if serial {
      SerialExtends(states, steps, Apply(st, s), s);
    }
    assert RunTo(states + [Apply(st, s)], steps + [s], Apply(st, s), serial);
  }

  lemma ReachableHasRun(st: State, serial: bool)
    requires Reachable(st, serial)
    ensures HasRun(st, serial)
  {
    var r := iset x: State | HasRun(x, serial);
    forall x | Init(x) ensures x in r {
      assert RunTo([x], [], x, serial);
    }
    forall x, s | x in r && Enabled(x, s) && (serial ==> Serialised(x, s)) ensures Apply(x, s) in r {
      HasRunStep(x, s, serial);
    }
    assert Closed(r, serial);
  }

  // --- single steps --------------------------------------------------------------------------

  lemma ReachAdmit(st: State, did: nat, event: CiWebhook, serial: bool)
    requires Reachable(st, serial) && DeliveryEnabled(st, did, Admit(event))
    ensures Reachable(WithDelivery(st, did, Delivery(event, st.Row(), Admitted, 0)), serial)
  {
    ReachStep(st, DeliveryBy(did, Admit(event)), serial);
  }

  function AcceptedAs(d: Delivery, calls: nat): Delivery {
    d.(phase := Accepted(if d.target.cappDeploymentId.None? then Some(DeploymentFor(d.target)) else None),
       calledAt := calls)
  }

  /** An accepted CAPP call: only the served image and the delivery's own phase move. */
  lemma ReachCall(st: State, did: nat, serial: bool) returns (st': State)
    requires Reachable(st, serial) && DeliveryEnabled(st, did, CallCapp(true)) && (serial ==> NoneInWindow(st))
    requires CappNameFor(st.deliveries[did].target) == CappName(st.deliveries[did].target.id)
    ensures Reachable(st', serial) && st'.core == st.core && st'.edits == st.edits && st'.driftLogged == st.driftLogged
    ensures st'.deliveries == st.deliveries[did := AcceptedAs(st.deliveries[did], |st.journal|)]
    ensures Serving(st'.world, CappName(st.deliveries[did].target.id)) == {st.deliveries[did].event.outcome.image}
  {
    var d := st.deliveries[did];
    ReachStep(st, DeliveryBy(did, CallCapp(true)), serial);
    st' := DoCallCapp(st, did, true);
    if d.target.cappDeploymentId.None? {
      CreateServes(st.world, d.target.id, d.target.namespace, d.event.outcome.image);
    } else {
      RolloutServes(st.world, CappName(d.target.id), d.event.outcome.image);
    }
  }

  lemma ReachCommit(st: State, did: nat, serial: bool)
    requires Reachable(st, serial) && DeliveryEnabled(st, did, CommitBuild(true))
    ensures Reachable(DoCommitBuild(st, did, true), serial)
  {
    ReachStep(st, DeliveryBy(did, CommitBuild(true)), serial);
  }

  lemma ReachEdit(st: State, eid: nat, s: EditStep, serial: bool)
    requires Reachable(st, serial) && EditEnabled(st, eid, s)
    ensures Reachable(EditApply(st, eid, s), serial)
  {
    ReachStep(st, EditBy(eid, s), serial);
  }

  /** A whole edit on an idle row with nothing in flight but deliveries. */
  lemma ReachWholeEdit(st: State, data: AutomationIn, sha: Sha, deadline: Deadline, serial: bool) returns (st': State)
    requires Reachable(st, serial) && st.edits == map[] && ClaimRefusal(st.Row(), data).None?
    requires sha !in st.core.shas && deadline !in st.core.deadlines
    ensures Reachable(st', serial) && st'.edits == map[] && st'.world.capps == st.world.capps
    ensures st'.deliveries == st.deliveries && st'.driftLogged == st.driftLogged
    ensures st'.Row() == Claimed(st.Row(), deadline).(
                           namespace := data.namespace, definition := DefinitionOf(data), buildingSha := Some(sha),
                           updatedBy := BUILD_ACTOR)
    ensures NewestRequest(st'.core.db.log) == Some(sha)
  {
    st' := st;
    ReachEdit(st', 0, Claim(data, BUILD_ACTOR, deadline), serial);
    st' := DoClaim(st', 0, data, BUILD_ACTOR, deadline);
    ReachEdit(st', 0, CommitScript(sha), serial);
    st' := DoCommitScript(st', 0, sha);
    ReachEdit(st', 0, Finish, serial);
    st' := EditApply(st', 0, Finish);
  }

  // --- the drift nobody logs --------------------------------------------------------------------

  function Build(sha: Sha, image: Image): CiWebhook { CiWebhook(sha, Success(image, "1")) }

  lemma TwoAdmitted(st: State, sha: Sha, a: Image) returns (st': State)
    requires Reachable(st, false) && st.deliveries == map[]
    requires Admission(st.Row(), sha).None? && IsDigestPinned(a.reference)
    ensures Reachable(st', false)
    ensures var d := Delivery(Build(sha, a), st.Row(), Admitted, 0); st' == st.(deliveries := map[0 := d, 1 := d])
  {
    var d := Delivery(Build(sha, a), st.Row(), Admitted, 0);
    ReachAdmit(st, 0, d.event, false);
    ReachAdmit(WithDelivery(st, 0, d), 1, d.event, false);
    st' := WithDelivery(WithDelivery(st, 0, d), 1, d);
  }

  /** Two deliveries of one first build are admitted and the first of them completes. */
  lemma FirstOfTwoCutsOver(st: State, sha: Sha, a: Image) returns (st': State)
    requires Reachable(st, false) && st.deliveries == map[] && Admission(st.Row(), sha).None?
    requires st.Row().cappDeploymentId.None? && IsDigestPinned(a.reference)
    ensures Reachable(st', false) && st'.edits == st.edits && st'.driftLogged == st.driftLogged
    ensures st'.core.shas == st.core.shas && st'.core.deadlines == st.core.deadlines
    ensures st'.deliveries == map[1 := Delivery(Build(sha, a), st.Row(), Admitted, 0)]
    ensures st'.Row() == CutOverRow(st.Row(), Success(a, "1"), Some(DeploymentFor(st.Row())))
    ensures Serving(st'.world, CappName(st.Row().id)) == {a}
  {
    var st1 := TwoAdmitted(st, sha, a);
    var st2 := ReachCall(st1, 0, false);
    ReachCommit(st2, 0, false);
    st' := DoCommitBuild(st2, 0, true);
  }

  /** The newer build is rolled out, and then the duplicate of the first one calls `create`. */
  lemma DuplicateCallsLast(st: State, sha: Sha, sha': Sha, a: Image, b: Image) returns (st': State)
    requires Reachable(st, false) && st.deliveries.Keys == {1, 2}
    requires st.deliveries[1].event == Build(sha, a) && st.deliveries[2].event == Build(sha', b)
    requires st.deliveries[1].phase.Admitted? && st.deliveries[2].phase.Admitted?
    requires st.deliveries[1].target.cappDeploymentId.None? && st.deliveries[1].target.id == st.deliveries[2].target.id
    requires st.deliveries[2].target.cappDeploymentId == Some(CappName(st.deliveries[2].target.id))
    requires Serving(st.world, CappName(st.deliveries[2].target.id)) == {a}
    ensures Reachable(st', false) && st'.core == st.core && st'.driftLogged == st.driftLogged
    ensures st'.deliveries.Keys == {1, 2} && st'.deliveries[1].InWindow() && st'.deliveries[2].InWindow()
    ensures st'.deliveries[1].event == Build(sha, a) && st'.deliveries[2].event == Build(sha', b)
    ensures Serving(st'.world, CappName(st.deliveries[1].target.id)) == {a}
  {
    var st1 := ReachCall(st, 2, false);
    st' := ReachCall(st1, 1, false);
  }

  /** The duplicate finds its own image still recorded and logs nothing; then the newer build is recorded. */
  lemma DuplicateCommitsFirst(st: State, sha: Sha, sha': Sha, a: Image, b: Image) returns (st': State)
    requires Reachable(st, false) && st.deliveries.Keys == {1, 2}
    requires st.deliveries[1].InWindow() && st.deliveries[2].InWindow()
    requires st.deliveries[1].event == Build(sha, a) && st.deliveries[2].event == Build(sha', b)
    requires Admission(st.Row(), sha').None? && sha' != sha && st.Row().activeDigest == Some(a)
    ensures Reachable(st', false) && st'.deliveries == map[]
    ensures st'.driftLogged == st.driftLogged && st'.world == st.world
    ensures st'.Row().activeDigest == Some(b) && st'.Row().matching == st.Row().matching && st'.Row().id == st.Row().id
  {
    ReachCommit(st, 1, false);
    var st1 := DoCommitBuild(st, 1, true);
    assert st1 == WithoutDelivery(st, 1);
    ReachCommit(st1, 2, false);
    st' := DoCommitBuild(st1, 2, true);
  }

  const ID := Uuid("0")
  const WHO := Actor("")
  const DATA := AutomationIn("", Wallet(""), "", [], None, None, None, None, None, None)
  const SHA1 := Sha("p", 1, "")
  const SHA2 := Sha("p", 2, "")

  function JustBorn(): State { Born(ID, "", DATA, WHO, SHA1, 0, World(map[], {}, map[], map[], [])) }

  lemma JustBornIsReachable(serial: bool)
    ensures Reachable(JustBorn(), serial)
  {
    ReachInit(JustBorn(), serial);
  }

  /** One build is done, its duplicate and the build of a following edit are admitted. */
  lemma NewerBuildAdmitted(a: Image, b: Image) returns (st: State)
    requires IsDigestPinned(a.reference) && IsDigestPinned(b.reference)
    ensures Reachable(st, false) && !st.driftLogged && Admission(st.Row(), SHA2).None?
    ensures st.Row().id == ID && st.Row().activeDigest == Some(a) && st.Row().cappDeploymentId == Some(CappName(ID))
    ensures st.deliveries == map[1 := Delivery(Build(SHA1, a), JustBorn().Row(), Admitted, 0),
                                 2 := Delivery(Build(SHA2, b), st.Row(), Admitted, 0)]
    ensures Serving(st.world, CappName(ID)) == {a}
  {
    JustBornIsReachable(false);
    st := FirstOfTwoCutsOver(JustBorn(), SHA1, a);
    st := ReachWholeEdit(st, DATA, SHA2, 1, false);
    ReachAdmit(st, 2, Build(SHA2, b), false);
    st := WithDelivery(st, 2, Delivery(Build(SHA2, b), st.Row(), Admitted, 0));
  }

  /** Without the serialisation hypothesis the row can record one image while CAPP serves another, with
      no delivery left in the window and nothing logged. */
  lemma UnserialisedDrift(a: Image, b: Image) returns (st: State)
    requires IsDigestPinned(a.reference) && IsDigestPinned(b.reference)
    ensures Reachable(st, false) && NoneInWindow(st) && !st.driftLogged && !st.Row().matching.InDeletion()
    ensures Recorded(st.Row()) == {b} && Served(st) == {a}
  {
    st := NewerBuildAdmitted(a, b);
    st := DuplicateCallsLast(st, SHA1, SHA2, a, b);
    st := DuplicateCommitsFirst(st, SHA1, SHA2, a, b);
  }

  /** Nor may a delivery die in its window: a lone first build accepted by CAPP is then served unrecorded, with
      nothing logged. */
  lemma LostCallDrift(a: Image) returns (st: State)
    requires IsDigestPinned(a.reference)
    ensures Reachable(st, false) && NoneInWindow(st) && !st.driftLogged && !st.Row().matching.InDeletion()
    ensures Recorded(st.Row()) == {} && Served(st) == {a}
  {
    JustBornIsReachable(false);
    ReachAdmit(JustBorn(), 0, Build(SHA1, a), false);
    var admitted := WithDelivery(JustBorn(), 0, Delivery(Build(SHA1, a), JustBorn().Row(), Admitted, 0));
    var called := ReachCall(admitted, 0, false);
    ReachStep(called, DeliveryBy(0, CrashDelivery), false);
    st := DeliveryApply(called, 0, CrashDelivery);
  }

  // --- a deployment in the wrong wallet ---------------------------------------------------------

  /** A build of `sha` fails while another delivery of it is admitted but has not called yet. */
  lemma FailedWhileAdmitted(st: State, sha: Sha, a: Image) returns (st': State)
    requires Reachable(st, true) && st.deliveries == map[] && Admission(st.Row(), sha).None?
    requires IsDigestPinned(a.reference)
    ensures Reachable(st', true) && st'.edits == st.edits && st'.driftLogged == st.driftLogged
    ensures st'.core.shas == st.core.shas && st'.core.deadlines == st.core.deadlines
    ensures st'.deliveries == map[0 := Delivery(Build(sha, a), st.Row(), Admitted, 0)]
    ensures st'.Row() == st.Row().(build := BuildFailed, buildingSha := None, lockDeadline := None)
  {
    ReachAdmit(st, 0, Build(sha, a), true);
    var st1 := WithDelivery(st, 0, Delivery(Build(sha, a), st.Row(), Admitted, 0));
    ReachAdmit(st1, 1, CiWebhook(sha, BuildOutcome.Failed), true);
    var st2 := WithDelivery(st1, 1, Delivery(CiWebhook(sha, BuildOutcome.Failed), st.Row(), Admitted, 0));
    ReachStep(st2, DeliveryBy(1, RecordFailure), true);
    st' := DeliveryApply(st2, 1, RecordFailure);
    assert st'.deliveries == st1.deliveries;
  }

  /** A first build is deployed and recorded, all by itself. */
  lemma FirstBuildRecorded(st: State, sha: Sha, a: Image) returns (st': State)
    requires Reachable(st, true) && 2 !in st.deliveries && NoneInWindow(st) && Admission(st.Row(), sha).None?
    requires st.Row().cappDeploymentId.None? && IsDigestPinned(a.reference)
    ensures Reachable(st', true) && st'.driftLogged == st.driftLogged && st'.deliveries == st.deliveries
    ensures st'.edits == st.edits && st'.core.deadlines == st.core.deadlines
    ensures st'.Row() == CutOverRow(st.Row(), Success(a, "1"), Some(DeploymentFor(st.Row())))
  {
    ReachAdmit(st, 2, Build(sha, a), true);
    var st1 := WithDelivery(st, 2, Delivery(Build(sha, a), st.Row(), Admitted, 0));
    var st2 := ReachCall(st1, 2, true);
    ReachCommit(st2, 2, true);
    st' := DoCommitBuild(st2, 2, true);
    assert st'.deliveries == st.deliveries;
  }

  /** A create made for another wallet than the row's, by a delivery whose image is already recorded: the
      deployment moves, and nothing is logged. */
  lemma LateCreateMovesIt(st: State, did: nat, target: Row, sha: Sha, a: Image) returns (st': State)
    requires Reachable(st, true) && st.deliveries == map[did := Delivery(Build(sha, a), target, Admitted, 0)]
    requires target.cappDeploymentId.None? && target.id == st.Row().id && target.namespace != st.Row().namespace
    requires st.Row().activeDigest == Some(a) && st.Row().build.Idle? && !st.Row().matching.InDeletion()
    ensures Reachable(st', true) && st'.deliveries == map[] && st'.driftLogged == st.driftLogged && st'.core == st.core
    ensures Served(st') == {a} && Key(st.Row().namespace, CappName(st.Row().id)) !in st'.world.capps
  {
    var key := Key(st.Row().namespace, CappName(st.Row().id));
    ReachStep(st, DeliveryBy(did, CallCapp(true)), true);
    CreateServes(st.world, target.id, target.namespace, a);
    var called := DoCallCapp(st, did, true);
    assert key !in called.world.capps;
    ReachCommit(called, did, true);
    st' := DoCommitBuild(called, did, true);
    assert st'.deliveries == map[];
  }

  const MOVED := DATA.(namespace := Wallet("w"))

  /** Serialisation, agreement and a silent log do not keep the deployment in the row's wallet: a first-build
      delivery that calls late can take it back to the wallet its snapshot named. */
  lemma DeploymentAstray(a: Image) returns (st: State)
    requires IsDigestPinned(a.reference)
    ensures Reachable(st, true) && NoneInWindow(st) && !st.driftLogged && !st.Row().matching.InDeletion()
    ensures st.Row().cappDeploymentId.Some? && Served(st) == Recorded(st.Row()) == {a}
    ensures Key(st.Row().namespace, CappName(st.Row().id)) !in st.world.capps
  {
    JustBornIsReachable(true);
    var failed := FailedWhileAdmitted(JustBorn(), SHA1, a);
    var moved := ReachWholeEdit(failed, MOVED, SHA2, 1, true);
    var built := FirstBuildRecorded(moved, SHA2, a);
    st := LateCreateMovesIt(built, 0, JustBorn().Row(), SHA1, a);
  }

  // --- a toggle under a claim -----------------------------------------------------------------------

  /** An enabled automation, claimed by an edit, is disabled while the edit is still building. */
  lemma ToggleUnderClaim(a: Image) returns (claimed: State, disabled: State)
    requires IsDigestPinned(a.reference)
    ensures Reachable(claimed, true) && Reachable(disabled, true)
    ensures claimed.Row().matching == Active && Holds(claimed.Row(), 1)
    ensures disabled.Row() == claimed.Row().(
              matching := Inactive, indexGeneration := claimed.Row().indexGeneration + 1, updatedBy := WHO)
    ensures 0 in disabled.edits && disabled.edits[0].claim.deadline == 1
  {
    JustBornIsReachable(true);
    var built := FirstBuildRecorded(JustBorn(), SHA1, a);
    PinnedIsNotBlank(a.reference);
    ReachStep(built, Direct(Toggle(true, WHO)), true);
    var enabled := DirectApply(built, Toggle(true, WHO));
    ReachEdit(enabled, 0, Claim(DATA, WHO, 1), true);
    claimed := DoClaim(enabled, 0, DATA, WHO, 1);
    ReachStep(claimed, Direct(Toggle(false, WHO)), true);
    disabled := DirectApply(claimed, Toggle(false, WHO));
  }

  // --- two successes for one commit -----------------------------------------------------------

  function Outcomes(st: State, sha: Sha): seq<bool> { OutcomesOf(st.core.Built().outcomes, sha) }

  /** A cutover adds one success and leaves the requests as they were. */
  lemma CutOverAddsASuccess(c: Core, event: CiWebhook, created: Option<CappDeployment>)
    requires event.outcome.Success?
    ensures CutOverCore(c, event, created).Built().Newest() == c.Built().Newest()
    ensures OutcomesOf(CutOverCore(c, event, created).Built().outcomes, event.sha)
         == OutcomesOf(c.Built().outcomes, event.sha) + [true]
  {
    ReplayCutOver(c.db, event, created);
    OutcomesAppend(c.Built().outcomes, Outcome(event.sha, true, |c.Built().requests|), event.sha);
  }

  lemma ReachRecorded(st: State, did: nat, sha: Sha) returns (st': State)
    requires Reachable(st, false) && did in st.deliveries
    requires st.deliveries[did].InWindow() && st.deliveries[did].event.sha == sha
    requires CommitReason(st.core.db, sha).None?
    ensures Reachable(st', false) && st'.edits == st.edits && st'.deliveries == st.deliveries - {did}
    ensures st'.core == CutOverCore(st.core, st.deliveries[did].event, st.deliveries[did].phase.created)
    ensures Outcomes(st', sha) == Outcomes(st, sha) + [true]
    ensures NewestRequest(st'.core.db.log) == NewestRequest(st.core.db.log)
  {
    ReachCommit(st, did, false);
    st' := DoCommitBuild(st, did, true);
    CutOverAddsASuccess(st.core, st.deliveries[did].event, st.deliveries[did].phase.created);
    NewestIsReplayed(st.core.db.log);
    NewestIsReplayed(st'.core.db.log);
  }

  /** An edit claims the row and dies, and the reconciler releases its claim. */
  lemma ReachReleasedClaim(st: State, data: AutomationIn, deadline: Deadline) returns (st': State)
    requires Reachable(st, false) && st.edits == map[] && ClaimRefusal(st.Row(), data).None?
    requires deadline !in st.core.deadlines
    ensures Reachable(st', false) && st'.deliveries == st.deliveries && st'.core.db.log == st.core.db.log
    ensures st'.Row() == st.Row().(build := BuildFailed, lockDeadline := None, buildingSha := None)
  {
    ReachEdit(st, 0, Claim(data, BUILD_ACTOR, deadline), false);
    var st1 := DoClaim(st, 0, data, BUILD_ACTOR, deadline);
    ReachStep(st1, Direct(ReleaseLock(true)), false);
    st' := DirectApply(st1, ReleaseLock(true));
  }

  lemma BothCall(st: State, event: CiWebhook, target: Row) returns (st': State)
    requires Reachable(st, false) && st.deliveries.Keys == {0, 1} && event.outcome.Success?
    requires forall i | i in st.deliveries :: st.deliveries[i] == Delivery(event, target, Admitted, 0)
    requires target.cappDeploymentId.None?
    ensures Reachable(st', false) && st'.core == st.core && st'.edits == st.edits && st'.deliveries.Keys == {0, 1}
    ensures forall i | i in st'.deliveries :: st'.deliveries[i].InWindow() && st'.deliveries[i].event == event
  {
    var called := ReachCall(st, 0, false);
    st' := ReachCall(called, 1, false);
  }

  lemma TwoAccepted(a: Image) returns (st: State)
    requires IsDigestPinned(a.reference)
    ensures Reachable(st, false) && st.core == JustBorn().core && st.edits == map[] && st.deliveries.Keys == {0, 1}
    ensures forall i | i in st.deliveries :: st.deliveries[i].InWindow() && st.deliveries[i].event == Build(SHA1, a)
  {
    JustBornIsReachable(false);
    var admitted := TwoAdmitted(JustBorn(), SHA1, a);
    st := BothCall(admitted, Build(SHA1, a), JustBorn().Row());
  }

  /** With a reconciler release, two deliveries of one build can both be recorded as successes. */
  lemma ReleasedClaimAllowsTwoSuccesses(a: Image) returns (st: State)
    requires IsDigestPinned(a.reference)
    ensures Reachable(st, false) && Outcomes(st, SHA1) == [true, true]
  {
    st := TwoAccepted(a);
    assert st.core.Built().outcomes == [];
    st := ReachRecorded(st, 0, SHA1);
    st := ReachReleasedClaim(st, DATA, 1);
    st := ReachRecorded(st, 1, SHA1);
  }
}
