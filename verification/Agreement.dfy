/** The image CAPP serves against the digest the row records. */
module Agreement {
  import opened Domain
  import opened ExternalWorld
  import opened Transactions
  import opened RowCore
  import opened Protocol
  import opened Invariant

  ghost predicate NoneInWindow(st: State) {
    forall i | i in st.deliveries :: !st.deliveries[i].InWindow()
  }

  /** The hypothesis: a success makes its CAPP call only while no other is between its call and its
      commit, and none dies in between. Everything else may interleave freely. */
  ghost predicate Serialised(st: State, s: Step) {
    s.DeliveryBy? ==>
      && (s.delivery == CallCapp(true) ==> NoneInWindow(st))
      && (s.delivery.CrashDelivery? && s.did in st.deliveries ==> !st.deliveries[s.did].InWindow())
  }

  function Recorded(row: Row): set<Image> {
    if row.activeDigest.Some? then {row.activeDigest.value} else {}
  }

  function Served(st: State): set<Image> { Serving(st.world, CappName(st.Row().id)) }

  function Latest(st: State): set<Image> {
    if st.lastAccepted.Some? then {st.lastAccepted.value} else {}
  }

  /** Short of a deletion, CAPP serves the image of the latest call it accepted. */
  ghost predicate LatestInv(st: State) {
    !st.Row().matching.InDeletion() ==> Served(st) == Latest(st)
  }

  lemma CallKeepsLatest(st: State, did: nat)
    requires DeliveryEnabled(st, did, CallCapp(true)) && DeliveryOk(st.core, st.deliveries[did])
    ensures LatestInv(DoCallCapp(st, did, true))
  {
    var d := st.deliveries[did];
    if d.target.cappDeploymentId.None? {
      CreateServes(st.world, d.target.id, d.target.namespace, d.event.outcome.image);
    } else {
      RolloutServes(st.world, d.target.cappDeploymentId.value, d.event.outcome.image);
    }
  }

  /** No delivery step but an accepted call reaches CAPP, short of a deletion. */
  lemma OtherDeliveriesFrame(st: State, did: nat, s: DeliveryStep)
    requires DeliveryEnabled(st, did, s) && s != CallCapp(true)
    requires did in st.deliveries ==> DeliveryOk(st.core, st.deliveries[did])
    ensures var st' := DeliveryApply(st, did, s);
      && st'.lastAccepted == st.lastAccepted && st'.Row().id == st.Row().id && st'.Row().matching == st.Row().matching
      && (!st.Row().matching.InDeletion() ==> st'.world == st.world)
  {
    match s
    case RecordFailure =>
    case CommitBuild(_) =>
    case TearDownCapp(_) =>
    case TearDownSecret(_) =>
    case _ =>
  }

  lemma OtherDeliveriesKeepLatest(st: State, st': State)
    requires LatestInv(st)
    requires st'.lastAccepted == st.lastAccepted
    requires st'.Row().id == st.Row().id && st'.Row().matching == st.Row().matching
    requires !st.Row().matching.InDeletion() ==> st'.world == st.world
    ensures LatestInv(st')
  {
  }

  lemma DirectKeepsLatest(st: State, s: DirectStep)
    requires LatestInv(st) && DirectEnabled(st, s)
    ensures LatestInv(DirectApply(st, s))
  {
  }

  lemma EditKeepsLatest(st: State, eid: nat, s: EditStep)
    requires LatestInv(st) && EditEnabled(st, eid, s)
    ensures LatestInv(EditApply(st, eid, s))
  {
  }

  lemma RunnerKeepsLatest(st: State, rid: nat, s: RunnerStep)
    requires LatestInv(st) && RunnerEnabled(st, rid, s) && (rid in st.runners ==> RunnerOk(st.core, st.runners[rid]))
    requires KeepsDeletion(st.core, RunnerApply(st, rid, s).core)
    ensures LatestInv(RunnerApply(st, rid, s))
  {
  }

  lemma {:induction false} LatestKept(states: seq<State>, steps: seq<Step>, i: nat)
    requires IsRun(states, steps) && i < |states|
    ensures LatestInv(states[i])
    decreases i
  {
    if i > 0 {
      LatestKept(states, steps, i - 1);
      RunKeepsInv(states, steps, i - 1);
      StepKeepsLatest(states[i - 1], steps[i - 1]);
    }
  }

  lemma StepKeepsLatest(st: State, s: Step)
    requires Inv(st) && LatestInv(st) && Enabled(st, s)
    ensures LatestInv(Apply(st, s))
  {
    match s
    case EditBy(eid, e) => EditKeepsLatest(st, eid, e);
    case DeliveryBy(did, d) =>
      if d == CallCapp(true) {
        CallKeepsLatest(st, did);
      } else {
        OtherDeliveriesFrame(st, did, d);
        OtherDeliveriesKeepLatest(st, DeliveryApply(st, did, d));
      }
    case RunnerBy(rid, r) =>
      RunnerGood(st, rid, r);
      RunnerKeepsLatest(st, rid, r);
    case Direct(d) => DirectKeepsLatest(st, d);
  }

  /** Whatever overlaps, short of a deletion CAPP serves the image of the latest call it accepted. */
  lemma ServedIsLatest(states: seq<State>, steps: seq<Step>, i: nat)
    requires IsRun(states, steps) && i < |states| && !states[i].Row().matching.InDeletion()
    ensures Served(states[i]) == if states[i].lastAccepted.Some? then {states[i].lastAccepted.value} else {}
  {
    LatestKept(states, steps, i);
  }
}
