/** What a deletion leaves in the row's wallet once its late deliveries are done. Calls are dated by
    the cascade runners' journal: a delivery is late for the Capp delete at journal position `a` when
    its own CAPP call landed after it. */
module Cleanup {
  import opened Domain
  import opened ExternalWorld
  import opened Transactions
  import opened RowCore
  import opened Protocol
  import opened Invariant
  import opened CascadeOrder

  /** Deliveries that still have to delete what their CAPP call may have left. */
  predicate OwesCapp(d: Delivery) { d.phase.Accepted? || d.phase.TearingDownCapp? }
  predicate OwesSecret(d: Delivery) { OwesCapp(d) || d.phase.TearingDownSecret? }

  ghost predicate CappDeletedAt(journal: seq<Call>, row: Row, a: nat) {
    a < |journal| && journal[a].op == DeletesCapp(CappKey(row)) && !journal[a].fate.Refused?
  }

  ghost predicate SecretDeletedAt(journal: seq<Call>, row: Row, b: nat) {
    b < |journal| && journal[b].op == DeletesSecret(SecretKey(row)) && !journal[b].fate.Refused?
  }

  ghost predicate NoneLostAfter(lostCalls: set<nat>, a: nat) { forall n | n in lostCalls :: n <= a }

  /** Its call was made in the row's wallet, after the Capp delete at `a`. */
  predicate Late(d: Delivery, row: Row, a: nat) { d.calledAt > a && d.target.namespace == row.namespace }

  /** A Capp left in the row's wallet is owed by a late delivery in flight. */
  ghost predicate CappOwed(world: World, row: Row, deliveries: map<nat, Delivery>, a: nat) {
    CappKey(row) in world.capps ==>
      exists i :: i in deliveries && OwesCapp(deliveries[i]) && Late(deliveries[i], row, a)
  }

  ghost predicate SecretOwed(world: World, row: Row, deliveries: map<nat, Delivery>, a: nat) {
    SecretKey(row) in world.secrets ==>
      exists i :: i in deliveries && OwesSecret(deliveries[i]) && Late(deliveries[i], row, a)
  }

  /** From a Capp delete at `a` on, and a Secret delete at a later `b` on, what is left is owed. */
  ghost predicate CleanInv(st: State, a: nat, b: nat) {
    CappDeletedAt(st.journal, st.Row(), a) && NoneLostAfter(st.lostCalls, a) ==>
      && CappOwed(st.world, st.Row(), st.deliveries, a)
      && (a < b && SecretDeletedAt(st.journal, st.Row(), b) ==> SecretOwed(st.world, st.Row(), st.deliveries, a))
  }

  // --- deliveries: what was owed stays owed until it is torn down ------------------------------

  /** The database and the journal untouched, and what was owed is owed, unless a late delivery was lost. */
  ghost predicate StillOwed(st: State, st': State, a: nat) {
    && st'.core == st.core && st'.journal == st.journal && st.lostCalls <= st'.lostCalls
    && (NoneLostAfter(st'.lostCalls, a) ==>
          && (CappOwed(st.world, st.Row(), st.deliveries, a) ==> CappOwed(st'.world, st.Row(), st'.deliveries, a))
          && (SecretOwed(st.world, st.Row(), st.deliveries, a) ==> SecretOwed(st'.world, st.Row(), st'.deliveries, a)))
  }

  /** The deliveries other than `did` owe what they owed. */
  ghost predicate OthersSame(st: State, st': State, did: nat) {
    forall i | i in st.deliveries && i != did :: i in st'.deliveries && st'.deliveries[i] == st.deliveries[i]
  }

  /** A call landing after `a` owes what it puts into the wallet. */
  lemma CallOwes(st: State, did: nat, a: nat)
    requires DeliveryEnabled(st, did, CallCapp(true)) && a < |st.journal|
    ensures StillOwed(st, DoCallCapp(st, did, true), a)
  {
    var st' := DoCallCapp(st, did, true);
    assert OthersSame(st, st', did);
    assert OwesCapp(st'.deliveries[did]) && OwesSecret(st'.deliveries[did]) && st'.deliveries[did].calledAt > a;
    assert st'.deliveries[did].target == st.deliveries[did].target;
  }

  lemma CommitOwes(st: State, did: nat, recorded: bool, a: nat)
    requires DeliveryEnabled(st, did, CommitBuild(recorded)) && st.Row().matching.InDeletion()
    ensures StillOwed(st, DoCommitBuild(st, did, recorded), a)
  {
    var st' := DoCommitBuild(st, did, recorded);
    assert OthersSame(st, st', did);
    if recorded {
      assert OwesCapp(st'.deliveries[did]);
      assert Late(st'.deliveries[did], st.Row(), a) == Late(st.deliveries[did], st.Row(), a);
    }
  }

  lemma TearDownCappOwes(st: State, did: nat, fate: Fate, a: nat)
    requires DeliveryEnabled(st, did, TearDownCapp(fate)) && DeliveryOk(st.core, st.deliveries[did])
    requires st.Row().matching.InDeletion()
    ensures StillOwed(st, DoTearDownCapp(st, did, fate), a)
  {
    var d, st' := st.deliveries[did], DoTearDownCapp(st, did, fate);
    assert CappNameFor(d.target) == CappName(st.Row().id);
    assert OthersSame(st, st', did);
    if fate.Done? {
      assert OwesSecret(st'.deliveries[did]) && Late(st'.deliveries[did], st.Row(), a) == Late(d, st.Row(), a);
    }
  }

  lemma TearDownSecretOwes(st: State, did: nat, fate: Fate, a: nat)
    requires DeliveryEnabled(st, did, TearDownSecret(fate)) && DeliveryOk(st.core, st.deliveries[did])
    ensures StillOwed(st, DoTearDownSecret(st, did, fate), a)
  {
    assert OthersSame(st, DoTearDownSecret(st, did, fate), did);
  }

  /** A delivery that leaves before its CAPP call owes nothing; one that crashes after it is lost. */
  lemma LeavingOwes(st: State, st': State, did: nat, a: nat)
    requires did in st.deliveries && st'.deliveries == st.deliveries - {did} && st'.world == st.world
    requires st'.core == st.core && st'.journal == st.journal && st.lostCalls <= st'.lostCalls
    requires st.deliveries[did].phase.Admitted? || st.deliveries[did].calledAt in st'.lostCalls
    ensures StillOwed(st, st', a)
  {
    assert OthersSame(st, st', did);
  }

  lemma DeliveryOwes(st: State, did: nat, s: DeliveryStep, a: nat)
    requires DeliveryEnabled(st, did, s) && st.Row().matching.InDeletion() && a < |st.journal|
    requires did in st.deliveries ==> DeliveryOk(st.core, st.deliveries[did])
    ensures StillOwed(st, DeliveryApply(st, did, s), a)
  {
    match s
    case RecordFailure => LeavingOwes(st, DeliveryApply(st, did, s), did, a);
    case CallCapp(accepted) =>
      if accepted {
        CallOwes(st, did, a);
      } else {
        LeavingOwes(st, DeliveryApply(st, did, s), did, a);
      }
    case CommitBuild(recorded) => CommitOwes(st, did, recorded, a);
    case TearDownCapp(fate) => TearDownCappOwes(st, did, fate, a);
    case TearDownSecret(fate) => TearDownSecretOwes(st, did, fate, a);
    case CrashDelivery => LeavingOwes(st, DeliveryApply(st, did, s), did, a);
  }

  lemma DeliveryKeepsClean(st: State, did: nat, s: DeliveryStep, a: nat, b: nat)
    requires CleanInv(st, a, b) && DeliveryEnabled(st, did, s)
    requires did in st.deliveries ==> DeliveryOk(st.core, st.deliveries[did])
    requires !st.Row().matching.InDeletion() ==> st.journal == []
    ensures CleanInv(DeliveryApply(st, did, s), a, b)
  {
    DeliveryFrame(st, did, s);
    if a < |st.journal| {
      DeliveryOwes(st, did, s, a);
    }
  }

  // --- runners and everyone else ---------------------------------------------------------------

  /** A runner's calls only take away, and its deletes take away what they name. */
  lemma RunnerClears(st: State, rid: nat, s: RunnerStep)
    requires RunnerEnabled(st, rid, s)
    ensures var st' := RunnerApply(st, rid, s);
      && st'.world.capps.Keys <= st.world.capps.Keys && st'.world.secrets <= st.world.secrets
      && (CallOf(st, rid, s).Some? && !CallOf(st, rid, s).value.fate.Refused? ==>
            var op := CallOf(st, rid, s).value.op;
            && (op.DeletesCapp? ==> op.key !in st'.world.capps)
            && (op.DeletesSecret? ==> op.key !in st'.world.secrets))
  {
  }

  /** Steps after which the wallet holds no more than before, the journal having grown by at most one call. */
  lemma ClearingKeepsClean(st: State, st': State, call: Option<Call>, a: nat, b: nat)
    requires CleanInv(st, a, b) && st'.deliveries == st.deliveries && st'.lostCalls == st.lostCalls
    requires st'.journal == st.journal + (if call.Some? then [call.value] else [])
    requires st'.journal != [] ==>
      CappKey(st'.Row()) == CappKey(st.Row()) && SecretKey(st'.Row()) == SecretKey(st.Row())
    requires st'.world.capps.Keys <= st.world.capps.Keys && st'.world.secrets <= st.world.secrets
    requires call.Some? && !call.value.fate.Refused? && call.value.op.DeletesCapp? ==>
      call.value.op.key !in st'.world.capps
    requires call.Some? && !call.value.fate.Refused? && call.value.op.DeletesSecret? ==>
      call.value.op.key !in st'.world.secrets
    ensures CleanInv(st', a, b)
  {
  }

  lemma RunnerKeepsClean(st: State, rid: nat, s: RunnerStep, a: nat, b: nat)
    requires CleanInv(st, a, b) && RunnerEnabled(st, rid, s)
    requires KeepsDeletion(st.core, RunnerApply(st, rid, s).core)
    requires !st.Row().matching.InDeletion() ==> st.journal == [] && rid !in st.runners
    ensures CleanInv(RunnerApply(st, rid, s), a, b)
  {
    RunnerFrame(st, rid, s);
    RunnerClears(st, rid, s);
    CallIsJournaled(st, rid, s);
    ClearingKeepsClean(st, RunnerApply(st, rid, s), CallOf(st, rid, s), a, b);
  }

  lemma EditLeavesResources(st: State, eid: nat, s: EditStep)
    requires EditEnabled(st, eid, s)
    ensures var st' := EditApply(st, eid, s);
      && st'.deliveries == st.deliveries && st'.lostCalls == st.lostCalls && st'.journal == st.journal
      && st'.world.capps == st.world.capps && st'.world.secrets == st.world.secrets
  {
  }

  lemma EditKeepsClean(st: State, eid: nat, s: EditStep, a: nat, b: nat)
    requires CleanInv(st, a, b) && EditEnabled(st, eid, s)
    requires KeepsDeletion(st.core, EditApply(st, eid, s).core)
    requires !st.Row().matching.InDeletion() ==> st.journal == []
    ensures CleanInv(EditApply(st, eid, s), a, b)
  {
    EditLeavesResources(st, eid, s);
    ClearingKeepsClean(st, EditApply(st, eid, s), None, a, b);
  }

  lemma DirectKeepsClean(st: State, s: DirectStep, a: nat, b: nat)
    requires CleanInv(st, a, b) && DirectEnabled(st, s)
    requires KeepsDeletion(st.core, DirectApply(st, s).core)
    requires !st.Row().matching.InDeletion() ==> st.journal == []
    ensures CleanInv(DirectApply(st, s), a, b)
  {
    ClearingKeepsClean(st, DirectApply(st, s), None, a, b);
  }

  lemma StepKeepsClean(st: State, s: Step, a: nat, b: nat)
    requires Inv(st) && CleanInv(st, a, b) && Enabled(st, s)
    requires !st.Row().matching.InDeletion() ==> st.journal == []
    ensures CleanInv(Apply(st, s), a, b)
  {
    match s
    case EditBy(eid, e) =>
      EditGood(st, eid, e);
      EditKeepsClean(st, eid, e, a, b);
    case DeliveryBy(did, d) =>
      DeliveryKeepsClean(st, did, d, a, b);
    case RunnerBy(rid, r) =>
      RunnerGood(st, rid, r);
      assert forall i | i in st.runners :: RunnerOk(st.core, st.runners[i]);
      RunnerKeepsClean(st, rid, r, a, b);
    case Direct(d) =>
      DirectGood(st, d);
      DirectKeepsClean(st, d, a, b);
  }

  lemma {:induction false} CleanKept(states: seq<State>, steps: seq<Step>, i: nat, a: nat, b: nat)
    requires IsRun(states, steps) && i < |states|
    ensures CleanInv(states[i], a, b)
    decreases i
  {
    if i > 0 {
      CleanKept(states, steps, i - 1, a, b);
      RunKeepsInv(states, steps, i - 1);
      OrderKept(states, steps, i - 1);
      StepKeepsClean(states[i - 1], steps[i - 1], a, b);
    }
  }

  // --- the theorem ------------------------------------------------------------------------------

  /** Take any runner's Capp delete and a later Secret delete. Once every delivery whose CAPP call landed
      after that Capp delete has completed its commit-time read and tear-down, the row's wallet holds
      neither the Capp nor the run-auth Secret. Earlier deliveries may be anywhere, or lost. */
  lemma NothingLeftInTheWallet(states: seq<State>, steps: seq<Step>, i: nat, a: nat, b: nat)
    requires IsRun(states, steps) && i < |states| && a < b
    requires CappDeletedAt(states[i].journal, states[i].Row(), a)
    requires SecretDeletedAt(states[i].journal, states[i].Row(), b)
    requires NoneLostAfter(states[i].lostCalls, a)
    requires forall k | k in states[i].deliveries && states[i].deliveries[k].calledAt > a ::
      states[i].deliveries[k].phase.Admitted?
    ensures CappKey(states[i].Row()) !in states[i].world.capps
    ensures SecretKey(states[i].Row()) !in states[i].world.secrets
  {
    CleanKept(states, steps, i, a, b);
  }

  /** Checkpoint 2 comes with such a pair of deletes. */
  lemma CheckpointTwoHasItsDeletes(states: seq<State>, steps: seq<Step>, i: nat) returns (a: nat, b: nat)
    requires IsRun(states, steps) && i < |states| && StepOf(states[i].Row()) >= STEP_CAPP_RESOURCES_DELETED
    ensures a < b
    ensures CappDeletedAt(states[i].journal, states[i].Row(), a)
    ensures SecretDeletedAt(states[i].journal, states[i].Row(), b)
  {
    OrderKept(states, steps, i);
    var at := ProgressIsASubsequence(states[i].journal, states[i].Row());
    a, b := at[0], at[1];
  }
}
