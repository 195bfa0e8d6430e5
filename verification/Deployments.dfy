/** Where an automation's deployment came from and where it is. */
module Deployments {
  import opened Domain
  import opened ExternalWorld
  import opened Transactions
  import opened RowCore
  import opened Protocol
  import opened Invariant
  import opened RowTheorems
  import opened CascadeOrder
  import opened Agreement
  import opened Schedules

  /** An accepted call that is a create: the delivery's snapshot had no deployment. */
  predicate IsCreate(st: State, s: Step) {
    IsAcceptedCall(s) && s.did in st.deliveries && st.deliveries[s.did].target.cappDeploymentId.None?
  }

  function TargetOf(st: State, s: Step): Row
    requires s.DeliveryBy? && s.did in st.deliveries
  {
    st.deliveries[s.did].target
  }

  // --- the create behind a stored id --------------------------------------------------------------

  /** The step records a build whose delivery created the deployment, with the wallet it created it in. */
  ghost predicate Stores(st: State, s: Step, st': State) {
    && CutsOver(st, s)
    && st.deliveries[s.did].phase.created.Some? && TargetOf(st, s).cappDeploymentId.None?
    && st'.core.storedFrom == Some(TargetOf(st, s).namespace)
  }

  predicate SameOrigin(st: State, st': State) {
    st'.Row().cappDeploymentId == st.Row().cappDeploymentId && st'.core.storedFrom == st.core.storedFrom
  }

  lemma CommitStores(st: State, did: nat, recorded: bool)
    requires DeliveryEnabled(st, did, CommitBuild(recorded)) && DeliveryOk(st.core, st.deliveries[did])
    ensures var st' := DoCommitBuild(st, did, recorded);
      SameOrigin(st, st') || Stores(st, DeliveryBy(did, CommitBuild(recorded)), st')
  {
  }

  lemma DeliveryStores(st: State, did: nat, s: DeliveryStep)
    requires DeliveryEnabled(st, did, s) && (did in st.deliveries ==> DeliveryOk(st.core, st.deliveries[did]))
    ensures var st' := DeliveryApply(st, did, s); SameOrigin(st, st') || Stores(st, DeliveryBy(did, s), st')
  {
    match s
    case Admit(_) =>
    case RecordFailure =>
    case CallCapp(_) =>
    case CommitBuild(recorded) => CommitStores(st, did, recorded);
    case TearDownCapp(_) =>
    case TearDownSecret(_) =>
    case CrashDelivery =>
  }

  lemma EditStoresNothing(st: State, eid: nat, s: EditStep)
    requires EditEnabled(st, eid, s)
    ensures SameOrigin(st, EditApply(st, eid, s))
  {
  }

  lemma RunnerStoresNothing(st: State, rid: nat, s: RunnerStep)
    requires RunnerEnabled(st, rid, s)
    ensures SameOrigin(st, RunnerApply(st, rid, s))
  {
  }

  lemma DirectStoresNothing(st: State, s: DirectStep)
    requires DirectEnabled(st, s)
    ensures SameOrigin(st, DirectApply(st, s))
  {
  }

  /** Whatever the step, a deployment id and its origin are written only by a cutover, with the wallet in which
      that delivery made its create call. */
  lemma OnlyCutoversStore(st: State, s: Step)
    requires DeliveriesInv(st) && Enabled(st, s)
    ensures SameOrigin(st, Apply(st, s)) || Stores(st, s, Apply(st, s))
  {
    match s
    case EditBy(eid, e) => EditStoresNothing(st, eid, e);
    case DeliveryBy(did, d) => DeliveryStores(st, did, d);
    case RunnerBy(rid, r) => RunnerStoresNothing(st, rid, r);
    case Direct(d) => DirectStoresNothing(st, d);
  }

  // --- deliveries and their calls ------------------------------------------------------------------

  /** Between two steps a delivery past its call keeps its event, its target and what its call created. */
  ghost predicate CallsKept(st: State, s: Step, st': State) {
    forall d | d in st'.deliveries && st'.deliveries[d].phase.Accepted? && !(IsAcceptedCall(s) && s.did == d) ::
      d in st.deliveries && st.deliveries[d] == st'.deliveries[d]
  }

  lemma DeliveryKeepsCalls(st: State, did: nat, s: DeliveryStep)
    requires DeliveryEnabled(st, did, s)
    ensures CallsKept(st, DeliveryBy(did, s), DeliveryApply(st, did, s))
  {
    OtherDeliveriesSame(st, did, s);
    match s
    case Admit(_) =>
    case RecordFailure =>
    case CallCapp(_) =>
    case CommitBuild(_) =>
    case TearDownCapp(_) =>
    case TearDownSecret(_) =>
    case CrashDelivery =>
  }

  lemma StepKeepsCalls(st: State, s: Step)
    requires Enabled(st, s)
    ensures CallsKept(st, s, Apply(st, s))
  {
    match s
    case EditBy(eid, e) => EditFrame(st, eid, e);
    case DeliveryBy(did, d) => DeliveryKeepsCalls(st, did, d);
    case RunnerBy(rid, r) => RunnerFrame(st, rid, r);
    case Direct(d) =>
  }

  lemma CallCreates(st: State, did: nat)
    requires DeliveryEnabled(st, did, CallCapp(true))
    ensures var st' := DoCallCapp(st, did, true);
      && did in st'.deliveries && st'.deliveries[did].phase.Accepted?
      && st'.deliveries[did].target == st.deliveries[did].target
      && (st'.deliveries[did].phase.created.Some? <==> IsCreate(st, DeliveryBy(did, CallCapp(true))))
  {
  }

  /** What consecutive states of a run have in common, as far as deployments go. */
  ghost predicate Deploys(st: State, s: Step, st': State) {
    && CallsKept(st, s, st')
    && (SameOrigin(st, st') || Stores(st, s, st'))
    && (IsAcceptedCall(s) ==>
          && s.did in st.deliveries && s.did in st'.deliveries && st'.deliveries[s.did].phase.Accepted?
          && st'.deliveries[s.did].target == st.deliveries[s.did].target
          && (st'.deliveries[s.did].phase.created.Some? <==> IsCreate(st, s)))
    && (st.Row().cappDeploymentId.Some? ==> st'.Row().namespace == st.Row().namespace)
    && (st'.Row().cappDeploymentId.Some? ==> st'.core.storedFrom == Some(st'.Row().namespace))
  }

  ghost predicate IsHistory(states: seq<State>, steps: seq<Step>) {
    && |states| == |steps| + 1 && states[0].deliveries == map[] && states[0].Row().cappDeploymentId.None?
    && forall i | 0 <= i < |steps| :: Deploys(states[i], steps[i], states[i + 1])
  }

  lemma StepDeploys(st: State, s: Step)
    requires DeliveriesInv(st) && Enabled(st, s) && CoreInv(Apply(st, s).core)
    requires KeepsDeployment(st.Row(), Apply(st, s).Row())
    ensures Deploys(st, s, Apply(st, s))
  {
    StepKeepsCalls(st, s);
    OnlyCutoversStore(st, s);
    if IsAcceptedCall(s) {
      CallCreates(st, s.did);
    }
  }

  lemma RunIsHistory(states: seq<State>, steps: seq<Step>)
    requires IsRun(states, steps)
    ensures IsHistory(states, steps)
  {
    forall i | 0 <= i < |steps| ensures Deploys(states[i], steps[i], states[i + 1]) {
      RunKeepsInv(states, steps, i);
      RunKeepsInv(states, steps, i + 1);
      StepGood(states[i], steps[i]);
      StepDeploys(states[i], steps[i]);
    }
  }

  /** A delivery past its call did make that call, for the target it carries. */
  lemma {:induction false} HasItsCall(states: seq<State>, steps: seq<Step>, i: nat, did: nat) returns (c: nat)
    requires IsHistory(states, steps) && i < |states|
    requires did in states[i].deliveries && states[i].deliveries[did].phase.Accepted?
    ensures c < i && IsAcceptedCall(steps[c]) && steps[c].did == did
    ensures did in states[c].deliveries && TargetOf(states[c], steps[c]) == states[i].deliveries[did].target
    ensures states[i].deliveries[did].phase.created.Some? <==> IsCreate(states[c], steps[c])
    decreases i
  {
    assert Deploys(states[i - 1], steps[i - 1], states[i]);
    if IsAcceptedCall(steps[i - 1]) && steps[i - 1].did == did {
      c := i - 1;
    } else {
      c := HasItsCall(states, steps, i - 1, did);
    }
  }

  lemma {:induction false} StoredHasItsCreate(states: seq<State>, steps: seq<Step>, i: nat) returns (c: nat)
    requires IsHistory(states, steps) && i < |states| && states[i].Row().cappDeploymentId.Some?
    ensures c < i && IsCreate(states[c], steps[c])
    ensures TargetOf(states[c], steps[c]).namespace == states[i].Row().namespace
    decreases i
  {
    assert Deploys(states[i - 1], steps[i - 1], states[i]);
    if SameOrigin(states[i - 1], states[i]) {
      c := StoredHasItsCreate(states, steps, i - 1);
    } else {
      c := HasItsCall(states, steps, i - 1, steps[i - 1].did);
    }
  }

  /** In every reachable state, reconciler releases included, a stored deployment id has a create call of the run
      behind it, made in exactly the wallet the row names; and from then on neither the id nor the wallet ever
      changes. */
  lemma WalletAgreement(states: seq<State>, steps: seq<Step>, i: nat, j: nat) returns (c: nat)
    requires IsRun(states, steps) && i <= j < |states| && states[i].Row().cappDeploymentId.Some?
    ensures c < i && IsCreate(states[c], steps[c])
    ensures TargetOf(states[c], steps[c]).namespace == states[i].Row().namespace == states[j].Row().namespace
    ensures states[j].Row().cappDeploymentId == states[i].Row().cappDeploymentId == Some(CappName(states[i].Row().id))
  {
    RunIsHistory(states, steps);
    RunIsTrace(states, steps);
    WalletStays(states, i, j);
    c := StoredHasItsCreate(states, steps, i);
  }

  // --- where the deployment is -----------------------------------------------------------------------

  /** The automation has exactly one deployment, in this wallet. */
  ghost predicate DeployedIn(w: World, id: Uuid, wallet: Wallet) {
    forall k: Key | k.name == CappName(id) :: k in w.capps <==> k == Key(wallet, CappName(id))
  }

  /** Short of a deletion, only a create moves a deployment, to its own target's wallet. */
  ghost predicate Places(st: State, s: Step, st': State) {
    !st'.Row().matching.InDeletion() ==>
      && !st.Row().matching.InDeletion() && st'.Row().id == st.Row().id
      && (IsCreate(st, s) ==> DeployedIn(st'.world, st.Row().id, TargetOf(st, s).namespace))
      && (!IsCreate(st, s) ==> st'.world.capps.Keys == st.world.capps.Keys)
  }

  lemma CallPlaces(st: State, did: nat)
    requires DeliveryEnabled(st, did, CallCapp(true)) && DeliveryOk(st.core, st.deliveries[did])
    ensures Places(st, DeliveryBy(did, CallCapp(true)), DoCallCapp(st, did, true))
  {
  }

  lemma EditPlaces(st: State, eid: nat, s: EditStep)
    requires EditEnabled(st, eid, s)
    ensures Places(st, EditBy(eid, s), EditApply(st, eid, s))
  {
  }

  lemma DirectPlaces(st: State, s: DirectStep)
    requires DirectEnabled(st, s)
    ensures Places(st, Direct(s), DirectApply(st, s))
  {
  }

  lemma RunnerPlaces(st: State, rid: nat, s: RunnerStep)
    requires RunnerEnabled(st, rid, s) && (rid in st.runners ==> RunnerOk(st.core, st.runners[rid]))
    requires KeepsDeletion(st.core, RunnerApply(st, rid, s).core)
    ensures Places(st, RunnerBy(rid, s), RunnerApply(st, rid, s))
  {
  }

  lemma StepPlaces(st: State, s: Step)
    requires Inv(st) && Enabled(st, s)
    ensures Places(st, s, Apply(st, s))
  {
    match s
    case EditBy(eid, e) => EditPlaces(st, eid, e);
    case DeliveryBy(did, d) =>
      if d == CallCapp(true) {
        CallPlaces(st, did);
      } else {
        OtherDeliveriesFrame(st, did, d);
      }
    case RunnerBy(rid, r) =>
      RunnerGood(st, rid, r);
      RunnerPlaces(st, rid, r);
    case Direct(d) => DirectPlaces(st, d);
  }

  ghost predicate NoCreate(states: seq<State>, steps: seq<Step>, k: nat, i: nat) {
    i <= |steps| <= |states| && forall m | k <= m < i :: !IsCreate(states[m], steps[m])
  }

  lemma {:induction false} StaysDeployed(states: seq<State>, steps: seq<Step>, c: nat, i: nat)
    requires |states| == |steps| + 1 && forall m | 0 <= m < |steps| :: Places(states[m], steps[m], states[m + 1])
    requires c < i <= |steps| && IsCreate(states[c], steps[c]) && NoCreate(states, steps, c + 1, i)
    requires !states[i].Row().matching.InDeletion()
    ensures DeployedIn(states[i].world, states[i].Row().id, TargetOf(states[c], steps[c]).namespace)
    decreases i
  {
    assert Places(states[i - 1], steps[i - 1], states[i]);
    if c < i - 1 {
      StaysDeployed(states, steps, c, i - 1);
    }
  }

  /** For every run and every state short of a deletion, with step `c` the last accepted create before it: the
      deployment is in that create's wallet and in no other, so it is in the row's wallet if and only if that
      create was made there. */
  lemma AtHomeExactly(states: seq<State>, steps: seq<Step>, c: nat, i: nat)
    requires IsRun(states, steps) && c < i <= |steps| && !states[i].Row().matching.InDeletion()
    requires IsCreate(states[c], steps[c]) && NoCreate(states, steps, c + 1, i)
    ensures DeployedIn(states[i].world, states[i].Row().id, TargetOf(states[c], steps[c]).namespace)
    ensures CappKey(states[i].Row()) in states[i].world.capps <==>
      TargetOf(states[c], steps[c]).namespace == states[i].Row().namespace
  {
    forall m | 0 <= m < |steps| ensures Places(states[m], steps[m], states[m + 1]) {
      RunKeepsInv(states, steps, m);
      StepPlaces(states[m], steps[m]);
    }
    StaysDeployed(states, steps, c, i);
    assert CappKey(states[i].Row()).name == CappName(states[i].Row().id);
  }

  /** After a lone call that its delivery survived, and with the last create made in the row's wallet, the
      deployment there serves the recorded digest. */
  lemma RecordedIsServedAtHome(states: seq<State>, steps: seq<Step>, k: nat, c: nat, i: nat)
    requires IsRun(states, steps) && LastCall(steps, k, i) && !states[i].Row().matching.InDeletion()
    requires NoneInWindow(states[k]) && !Windowed(states[i], steps[k].did)
    requires forall m | k < m < i :: !DiesOrWarns(states[m], steps[m], steps[k].did)
    requires c < i && IsCreate(states[c], steps[c]) && NoCreate(states, steps, c + 1, i)
    requires TargetOf(states[c], steps[c]).namespace == states[i].Row().namespace
    ensures CappKey(states[i].Row()) in states[i].world.capps
    ensures states[i].Row().activeDigest == Some(states[i].world.capps[CappKey(states[i].Row())])
  {
    LoneCallAgrees(states, steps, k, i);
    AtHomeExactly(states, steps, c, i);
    var image := states[i].world.capps[CappKey(states[i].Row())];
    assert image in Served(states[i]);
  }
}
