/** When the image CAPP serves is the recorded one, read off the order in which deliveries make their
    calls and commit them. */
module Schedules {
  import opened Domain
  import opened ExternalWorld
  import opened Transactions
  import opened RowCore
  import opened Protocol
  import opened Invariant
  import opened Agreement

  predicate IsAcceptedCall(s: Step) { s.DeliveryBy? && s.delivery == CallCapp(true) }

  /** Delivery `did` is between its CAPP call and its commit. */
  predicate Windowed(st: State, did: nat) { did in st.deliveries && st.deliveries[did].InWindow() }

  function ImageIn(st: State, did: nat): Image
    requires did in st.deliveries && st.deliveries[did].event.outcome.Success?
  {
    st.deliveries[did].event.outcome.image
  }

  /** The step records a build. */
  predicate CutsOver(st: State, s: Step) {
    && s.DeliveryBy? && s.delivery == CommitBuild(true) && Windowed(st, s.did)
    && CommitReason(st.core.db, st.deliveries[s.did].event.sha).None?
  }

  /** Delivery `did` ends with the "CAPP ahead of row" warning. */
  predicate Warns(st: State, s: Step, did: nat) {
    && s.DeliveryBy? && s.did == did && Windowed(st, did)
    && (|| s.delivery == CommitBuild(false)
        || (s.delivery == CommitBuild(true) && !CutsOver(st, s) && st.Row().activeDigest != Some(ImageIn(st, did))))
  }

  /** Delivery `did` dies in its window, or ends with the warning. */
  predicate DiesOrWarns(st: State, s: Step, did: nat) {
    Warns(st, s, did) || (s == DeliveryBy(did, CrashDelivery) && Windowed(st, did))
  }

  /** What a step does to the recorded digest, to the windows and to the latest accepted image. */
  ghost predicate Follows(st: State, s: Step, st': State) {
    && st'.Row().activeDigest == (if CutsOver(st, s) then Some(ImageIn(st, s.did)) else st.Row().activeDigest)
    && (forall d | Windowed(st', d) && !(IsAcceptedCall(s) && s.did == d) ::
          Windowed(st, d) && st.deliveries[d] == st'.deliveries[d])
    && (forall d | Windowed(st, d) && !(s.DeliveryBy? && s.did == d) :: Windowed(st', d))
    && (IsAcceptedCall(s) ==>
          Windowed(st', s.did) && s.did in st.deliveries && st'.deliveries[s.did].event == st.deliveries[s.did].event)
    && (forall d | Windowed(st, d) && !Windowed(st', d) ::
          CutsOver(st, s) || DiesOrWarns(st, s, d) || st.Row().activeDigest == Some(ImageIn(st, d)))
    && (st.driftLogged || (s.DeliveryBy? && Warns(st, s, s.did)) ==> st'.driftLogged)
    && st'.lastAccepted ==
         (if IsAcceptedCall(s) && Windowed(st', s.did) then Some(ImageIn(st', s.did)) else st.lastAccepted)
  }

  /** A step of delivery `did` that starts and ends outside its window, or dies in it. */
  lemma ByStanderFollows(st: State, did: nat, s: DeliveryStep, st': State)
    requires s != CallCapp(true) && !s.CommitBuild? && (Windowed(st, did) ==> s.CrashDelivery?)
    requires forall i | i != did :: (i in st.deliveries <==> i in st'.deliveries)
    requires forall i | i != did && i in st'.deliveries :: i in st.deliveries && st'.deliveries[i] == st.deliveries[i]
    requires !Windowed(st', did)
    requires st'.Row().activeDigest == st.Row().activeDigest && st'.lastAccepted == st.lastAccepted
    requires st'.driftLogged == st.driftLogged
    ensures Follows(st, DeliveryBy(did, s), st')
  {
  }

  lemma CallFollows(st: State, did: nat)
    requires DeliveryEnabled(st, did, CallCapp(true))
    ensures Follows(st, DeliveryBy(did, CallCapp(true)), DoCallCapp(st, did, true))
  {
  }

  lemma CommitFollows(st: State, did: nat, recorded: bool)
    requires DeliveryEnabled(st, did, CommitBuild(recorded))
    ensures Follows(st, DeliveryBy(did, CommitBuild(recorded)), DoCommitBuild(st, did, recorded))
  {
  }

  lemma DeliveryFollows(st: State, did: nat, s: DeliveryStep)
    requires DeliveryEnabled(st, did, s)
    ensures Follows(st, DeliveryBy(did, s), DeliveryApply(st, did, s))
  {
    match s
    case CallCapp(accepted) =>
      if accepted {
        CallFollows(st, did);
      } else {
        ByStanderFollows(st, did, s, WithoutDelivery(st, did));
      }
    case CommitBuild(recorded) => CommitFollows(st, did, recorded);
    case TearDownCapp(fate) => ByStanderFollows(st, did, s, DoTearDownCapp(st, did, fate));
    case TearDownSecret(fate) => ByStanderFollows(st, did, s, DoTearDownSecret(st, did, fate));
    case Admit(_) => ByStanderFollows(st, did, s, DeliveryApply(st, did, s));
    case RecordFailure => ByStanderFollows(st, did, s, DeliveryApply(st, did, s));
    case CrashDelivery => ByStanderFollows(st, did, s, DeliveryApply(st, did, s));
  }

  lemma QuietFollows(st: State, s: Step, st': State)
    requires !s.DeliveryBy? && st'.deliveries == st.deliveries && st'.lastAccepted == st.lastAccepted
    requires st'.Row().activeDigest == st.Row().activeDigest && st'.driftLogged == st.driftLogged
    ensures Follows(st, s, st')
  {
  }

  lemma EditFrame(st: State, eid: nat, s: EditStep)
    requires EditEnabled(st, eid, s)
    ensures var st' := EditApply(st, eid, s);
      && st'.deliveries == st.deliveries && st'.lastAccepted == st.lastAccepted
      && st'.Row().activeDigest == st.Row().activeDigest && st'.driftLogged == st.driftLogged
  {
  }

  lemma RunnerLeavesDigest(st: State, rid: nat, s: RunnerStep)
    requires RunnerEnabled(st, rid, s)
    ensures RunnerApply(st, rid, s).Row().activeDigest == st.Row().activeDigest
  {
  }

  lemma StepFollows(st: State, s: Step)
    requires Enabled(st, s)
    ensures Follows(st, s, Apply(st, s))
  {
    match s
    case EditBy(eid, e) =>
      EditFrame(st, eid, e);
      QuietFollows(st, s, EditApply(st, eid, e));
    case DeliveryBy(did, d) => DeliveryFollows(st, did, d);
    case RunnerBy(rid, r) =>
      RunnerFrame(st, rid, r);
      RunnerLeavesDigest(st, rid, r);
      QuietFollows(st, s, RunnerApply(st, rid, r));
    case Direct(d) => QuietFollows(st, s, DirectApply(st, d));
  }

  ghost predicate IsSchedule(states: seq<State>, steps: seq<Step>) {
    && |states| == |steps| + 1
    && forall i | 0 <= i < |steps| :: Follows(states[i], steps[i], states[i + 1])
  }

  lemma RunIsSchedule(states: seq<State>, steps: seq<Step>)
    requires IsRun(states, steps)
    ensures IsSchedule(states, steps)
  {
    forall i | 0 <= i < |steps| ensures Follows(states[i], steps[i], states[i + 1]) {
      StepFollows(states[i], steps[i]);
    }
  }

  // --- what the schedule says ---------------------------------------------------------------------

  /** No CAPP call was accepted in steps `k` to `i`. */
  ghost predicate NoCall(steps: seq<Step>, k: nat, i: nat) {
    i <= |steps| && forall m | k <= m < i :: !IsAcceptedCall(steps[m])
  }

  ghost predicate NoCutover(states: seq<State>, steps: seq<Step>, k: nat, i: nat) {
    i <= |steps| <= |states| && forall m | k <= m < i :: !CutsOver(states[m], steps[m])
  }

  lemma {:induction false} LatestStays(states: seq<State>, steps: seq<Step>, k: nat, i: nat)
    requires IsSchedule(states, steps) && k <= i && NoCall(steps, k, i)
    ensures states[i].lastAccepted == states[k].lastAccepted
    decreases i
  {
    if k < i {
      LatestStays(states, steps, k, i - 1);
      assert Follows(states[i - 1], steps[i - 1], states[i]);
    }
  }

  lemma {:induction false} DigestStays(states: seq<State>, steps: seq<Step>, k: nat, i: nat)
    requires IsSchedule(states, steps) && k <= i && NoCutover(states, steps, k, i)
    ensures states[i].Row().activeDigest == states[k].Row().activeDigest
    decreases i
  {
    if k < i {
      DigestStays(states, steps, k, i - 1);
      assert Follows(states[i - 1], steps[i - 1], states[i]);
    }
  }

  /** With no call accepted since, a delivery in its window was already in it. */
  lemma {:induction false} WindowedSince(states: seq<State>, steps: seq<Step>, k: nat, i: nat, did: nat)
    requires IsSchedule(states, steps) && k <= i && NoCall(steps, k, i) && Windowed(states[i], did)
    ensures Windowed(states[k], did) && states[k].deliveries[did] == states[i].deliveries[did]
    decreases i
  {
    if k < i {
      assert Follows(states[i - 1], steps[i - 1], states[i]);
      WindowedSince(states, steps, k, i - 1, did);
    }
  }

  /** The last cutover of steps `k` to `i`. */
  lemma {:induction false} LastCutover(states: seq<State>, steps: seq<Step>, k: nat, i: nat) returns (m: nat)
    requires IsSchedule(states, steps) && k <= i <= |steps| && !NoCutover(states, steps, k, i)
    ensures k <= m < i && CutsOver(states[m], steps[m]) && NoCutover(states, steps, m + 1, i)
    ensures states[i].Row().activeDigest == Some(ImageIn(states[m], steps[m].did))
    decreases i
  {
    assert Follows(states[i - 1], steps[i - 1], states[i]);
    if CutsOver(states[i - 1], steps[i - 1]) {
      m := i - 1;
    } else {
      m := LastCutover(states, steps, k, i - 1);
    }
  }

  /** Step `k` is the last accepted CAPP call before state `i`. */
  ghost predicate LastCall(steps: seq<Step>, k: nat, i: nat) {
    k < i <= |steps| && IsAcceptedCall(steps[k]) && NoCall(steps, k + 1, i)
  }

  /** At step `m` a delivery other than the caller of step `k`, in its window when that call landed, was recorded
      with another image; no build was recorded after it. */
  ghost predicate OvertakenAt(states: seq<State>, steps: seq<Step>, k: nat, m: nat, i: nat)
    requires k < m < i <= |steps| && |states| == |steps| + 1
    requires steps[k].DeliveryBy? && Windowed(states[k + 1], steps[k].did)
  {
    && CutsOver(states[m], steps[m]) && NoCutover(states, steps, m + 1, i)
    && steps[m].did != steps[k].did && Windowed(states[k], steps[m].did)
    && ImageIn(states[m], steps[m].did) != ImageIn(states[k + 1], steps[k].did)
  }

  lemma CallOpensItsWindow(states: seq<State>, steps: seq<Step>, k: nat)
    requires IsSchedule(states, steps) && k < |steps| && IsAcceptedCall(steps[k])
    ensures Windowed(states[k + 1], steps[k].did)
    ensures states[k + 1].lastAccepted == Some(ImageIn(states[k + 1], steps[k].did))
    ensures states[k + 1].Row().activeDigest == states[k].Row().activeDigest
  {
    assert Follows(states[k], steps[k], states[k + 1]);
  }

  /** A recorded build since the call is the caller's own or overtook it. */
  lemma CutoverSinceTheCall(states: seq<State>, steps: seq<Step>, k: nat, m: nat, i: nat)
    requires IsSchedule(states, steps) && LastCall(steps, k, i) && k < m < i
    requires CutsOver(states[m], steps[m]) && NoCutover(states, steps, m + 1, i)
    requires Windowed(states[k + 1], steps[k].did)
    ensures ImageIn(states[m], steps[m].did) != ImageIn(states[k + 1], steps[k].did) ==>
      OvertakenAt(states, steps, k, m, i)
  {
    WindowedSince(states, steps, k + 1, m, steps[m].did);
    assert Follows(states[k], steps[k], states[k + 1]);
  }

  /** For every run and every state short of a deletion, with step `k` the last accepted CAPP call before it: the
      served image is not the recorded one if and only if a delivery in whose window that call landed was
      recorded later with another image and last, or no build was recorded since and the row did not carry the
      call's image already. */
  lemma AgreementExactly(states: seq<State>, steps: seq<Step>, k: nat, i: nat)
    requires IsRun(states, steps) && LastCall(steps, k, i) && !states[i].Row().matching.InDeletion()
    ensures Windowed(states[k + 1], steps[k].did)
    ensures Served(states[i]) != Recorded(states[i].Row()) <==>
      || (exists m | k < m < i :: OvertakenAt(states, steps, k, m, i))
      || (&& NoCutover(states, steps, k + 1, i)
          && states[k].Row().activeDigest != Some(ImageIn(states[k + 1], steps[k].did)))
  {
    RunIsSchedule(states, steps);
    CallOpensItsWindow(states, steps, k);
    LatestStays(states, steps, k + 1, i);
    ServedIsLatest(states, steps, i);
    if NoCutover(states, steps, k + 1, i) {
      DigestStays(states, steps, k + 1, i);
    } else {
      var m := LastCutover(states, steps, k + 1, i);
      CutoverSinceTheCall(states, steps, k, m, i);
      forall l | k < l < i && OvertakenAt(states, steps, k, l, i) ensures l == m {
      }
    }
  }

  /** With no call accepted yet, nothing is served and nothing recorded. */
  lemma NoCallNoImage(states: seq<State>, steps: seq<Step>, i: nat)
    requires IsRun(states, steps) && i < |states| && NoCall(steps, 0, i) && !states[i].Row().matching.InDeletion()
    ensures Served(states[i]) == Recorded(states[i].Row()) == {}
  {
    RunIsSchedule(states, steps);
    LatestStays(states, steps, 0, i);
    ServedIsLatest(states, steps, i);
    forall m | 0 <= m < i ensures !CutsOver(states[m], steps[m]) {
      if CutsOver(states[m], steps[m]) {
        WindowedSince(states, steps, 0, m, steps[m].did);
      }
    }
    DigestStays(states, steps, 0, i);
  }

  /** A delivery whose call changed nothing on the row left its window by dying or with a warning. */
  lemma {:induction false} UnrecordedCallDiesOrWarns(states: seq<State>, steps: seq<Step>, k: nat, i: nat, did: nat)
    returns (m: nat)
    requires IsSchedule(states, steps) && k <= i <= |steps| && NoCall(steps, k, i) && NoCutover(states, steps, k, i)
    requires Windowed(states[k], did) && !Windowed(states[i], did)
    requires states[k].Row().activeDigest != Some(ImageIn(states[k], did))
    ensures k <= m < i && DiesOrWarns(states[m], steps[m], did)
    decreases i
  {
    assert Follows(states[i - 1], steps[i - 1], states[i]);
    if Windowed(states[i - 1], did) {
      m := i - 1;
      WindowedSince(states, steps, k, i - 1, did);
      DigestStays(states, steps, k, i - 1);
    } else {
      m := UnrecordedCallDiesOrWarns(states, steps, k, i - 1, did);
    }
  }

  /** If the last accepted call was made while no other delivery was in its window, and its own delivery has
      left the window without dying there or warning, then the recorded digest is the served one, whatever
      overlapped, crashed or was logged before. */
  lemma LoneCallAgrees(states: seq<State>, steps: seq<Step>, k: nat, i: nat)
    requires IsRun(states, steps) && LastCall(steps, k, i) && !states[i].Row().matching.InDeletion()
    requires NoneInWindow(states[k]) && !Windowed(states[i], steps[k].did)
    requires forall m | k < m < i :: !DiesOrWarns(states[m], steps[m], steps[k].did)
    ensures Served(states[i]) == Recorded(states[i].Row())
  {
    RunIsSchedule(states, steps);
    AgreementExactly(states, steps, k, i);
    CallOpensItsWindow(states, steps, k);
    if NoCutover(states, steps, k + 1, i)
       && states[k].Row().activeDigest != Some(ImageIn(states[k + 1], steps[k].did)) {
      var m := UnrecordedCallDiesOrWarns(states, steps, k + 1, i, steps[k].did);
    }
  }

  /** Conversely, with the caller out of its window, a disagreement comes from a delivery that overtook the call,
      or from the caller's own death or warning. */
  lemma DisagreementMeans(states: seq<State>, steps: seq<Step>, k: nat, i: nat) returns (m: nat)
    requires IsRun(states, steps) && LastCall(steps, k, i) && !states[i].Row().matching.InDeletion()
    requires !Windowed(states[i], steps[k].did) && Served(states[i]) != Recorded(states[i].Row())
    ensures k < m < i && Windowed(states[k + 1], steps[k].did)
    ensures OvertakenAt(states, steps, k, m, i) || DiesOrWarns(states[m], steps[m], steps[k].did)
  {
    RunIsSchedule(states, steps);
    AgreementExactly(states, steps, k, i);
    CallOpensItsWindow(states, steps, k);
    if NoCutover(states, steps, k + 1, i) {
      m := UnrecordedCallDiesOrWarns(states, steps, k + 1, i, steps[k].did);
    } else {
      m :| k < m < i && OvertakenAt(states, steps, k, m, i);
    }
  }

  // --- serialised runs -------------------------------------------------------------------------------

  lemma {:induction false} FindLastCall(steps: seq<Step>, i: nat) returns (k: nat)
    requires i <= |steps| && !NoCall(steps, 0, i)
    ensures LastCall(steps, k, i)
    decreases i
  {
    if IsAcceptedCall(steps[i - 1]) {
      k := i - 1;
    } else {
      k := FindLastCall(steps, i - 1);
    }
  }

  lemma {:induction false} WarningStays(states: seq<State>, steps: seq<Step>, m: nat, i: nat)
    requires IsSchedule(states, steps) && m < i <= |steps|
    requires steps[m].DeliveryBy? && Warns(states[m], steps[m], steps[m].did)
    ensures states[i].driftLogged
    decreases i
  {
    assert Follows(states[i - 1], steps[i - 1], states[i]);
    if m < i - 1 {
      WarningStays(states, steps, m, i - 1);
    }
  }

  /** In every serialised run, outside the window and short of a deletion, CAPP serves exactly the recorded
      digest, unless the delivery of the last accepted call itself ended with a logged warning; earlier
      warnings are forgotten. */
  lemma RowAndCappAgree(states: seq<State>, steps: seq<Step>, i: nat)
    requires IsRun(states, steps) && i < |states|
    requires forall k | 0 <= k < i :: Serialised(states[k], steps[k])
    requires !states[i].Row().matching.InDeletion() && NoneInWindow(states[i])
    ensures Served(states[i]) == Recorded(states[i].Row()) ||
      exists k, m | 0 <= k < m < i :: LastCall(steps, k, i) && Warns(states[m], steps[m], steps[k].did)
    ensures Served(states[i]) == Recorded(states[i].Row()) || states[i].driftLogged
  {
    if NoCall(steps, 0, i) {
      NoCallNoImage(states, steps, i);
    } else if Served(states[i]) != Recorded(states[i].Row()) {
      var k := FindLastCall(steps, i);
      assert NoneInWindow(states[k]);
      var m := DisagreementMeans(states, steps, k, i);
      RunIsSchedule(states, steps);
      WarningStays(states, steps, m, i);
    }
  }
}
