/** What holds of the row and its log over every run, whatever the interleaving. */
module RowTheorems {
  import opened Domain
  import opened ExternalWorld
  import opened Transactions
  import opened AuditLog
  import opened RowCore
  import opened Protocol
  import opened Invariant

  // --- runs as traces ------------------------------------------------------------------

  /** What consecutive databases of a run have in common, whichever step was taken. */
  ghost predicate Advances(c: Core, c': Core) {
    && c.deadlines <= c'.deadlines
    && KeepsDeletion(c, c')
    && KeepsDeployment(c.db.row, c'.db.row)
    && forall d | d in c.deadlines && Holds(c'.db.row, d) :: Holds(c.db.row, d)
  }

  /** A live edit whose deadline was known before the step was live before it, its phase aside. */
  ghost predicate EditsOlder(st: State, st': State) {
    forall eid | eid in st'.edits && st'.edits[eid].claim.deadline in st.core.deadlines ::
      eid in st.edits && st.edits[eid] == st'.edits[eid].(phase := st.edits[eid].phase)
  }

  ghost predicate IsTrace(states: seq<State>) {
    && (forall i | 0 <= i < |states| :: CoreInv(states[i].core))
    && (forall i | 0 <= i < |states| - 1 :: Advances(states[i].core, states[i + 1].core))
    && (forall i | 0 <= i < |states| - 1 :: EditsOlder(states[i], states[i + 1]))
  }

  lemma StepAdvances(st: State, s: Step)
    requires Inv(st) && Enabled(st, s)
    ensures Advances(st.core, Apply(st, s).core)
  {
    StepGood(st, s);
  }

  lemma StepEditsOlder(st: State, s: Step)
    requires Enabled(st, s)
    ensures EditsOlder(st, Apply(st, s))
  {
    match s
    case EditBy(eid, e) => ActingEditOlder(st, eid, e);
    case DeliveryBy(did, d) => DeliveryFrame(st, did, d);
    case RunnerBy(rid, r) => RunnerFrame(st, rid, r);
    case Direct(d) =>
  }

  lemma ActingEditOlder(st: State, eid: nat, s: EditStep)
    requires EditEnabled(st, eid, s)
    ensures EditsOlder(st, EditApply(st, eid, s))
  {
    OtherEditsSame(st, eid, s);
  }

  lemma RunIsTrace(states: seq<State>, steps: seq<Step>)
    requires IsRun(states, steps)
    ensures IsTrace(states)
  {
    forall i | 0 <= i < |states| ensures CoreInv(states[i].core) {
      RunKeepsInv(states, steps, i);
    }
    forall i | 0 <= i < |steps|
      ensures Advances(states[i].core, states[i + 1].core) && EditsOlder(states[i], states[i + 1])
    {
      RunKeepsInv(states, steps, i);
      StepAdvances(states[i], steps[i]);
      StepEditsOlder(states[i], steps[i]);
    }
  }

  // --- audit replay ----------------------------------------------------------------

  /** Folding the log gives the matching state, the served digest and the generation; there is
      at most one delete; every requesting revision names what its commit last produced; and an
      active row is deployed and built. */
  lemma AuditReplay(states: seq<State>, steps: seq<Step>, i: nat)
    requires IsRun(states, steps) && i < |states|
    ensures var row, s := states[i].Row(), Replay(states[i].core.db.log);
      && s.matching == (if row.matching.Deleted? then Deleting else row.matching)
      && s.digest == row.activeDigest
      && s.generation == row.indexGeneration
      && s.deletes == (if row.matching.InDeletion() then 1 else 0)
      && (row.matching.Active? ==> row.cappDeploymentId.Some? && row.activeDigest.Some?
                                   && !Blank(row.activeDigest.value.reference))
    ensures RequestsLearn(states[i].core.db.log)
  {
    RunKeepsInv(states, steps, i);
  }

  // --- wallets ------------------------------------------------------------------------------

  lemma {:induction false} WalletStays(states: seq<State>, i: nat, j: nat)
    requires IsTrace(states) && i <= j < |states| && states[i].Row().cappDeploymentId.Some?
    ensures states[j].Row().cappDeploymentId == states[i].Row().cappDeploymentId
    ensures states[j].Row().namespace == states[i].Row().namespace
  {
    if i < j {
      WalletStays(states, i, j - 1);
      assert Advances(states[j - 1].core, states[j].core);
    }
  }

  // --- deletion is one-way and freezing -----------------------------------------------

  /** From its admission on, a deletion freezes the row and its log: only the cascade's step and the
      move to `deleted` change, so a pending edit, toggle or cutover has no effect. */
  lemma DeletionFreezes(states: seq<State>, steps: seq<Step>, i: nat, j: nat)
    requires IsRun(states, steps) && i <= j < |states| && states[i].Row().matching.InDeletion()
    ensures states[j].Row().matching.InDeletion() && !states[j].Row().build.Building?
    ensures Frozen(states[i].Row(), states[j].Row()) && states[j].core.db.log == states[i].core.db.log
    ensures StepOf(states[i].Row()) <= StepOf(states[j].Row()) <= STEP_DELETED
    ensures states[j].Row().matching.Deleted? <==> StepOf(states[j].Row()) == STEP_DELETED
  {
    RunIsTrace(states, steps);
    FrozenSince(states, i, j);
    assert DeletionInv(states[j].Row());
  }

  lemma {:induction false} FrozenSince(states: seq<State>, i: nat, j: nat)
    requires IsTrace(states) && i <= j < |states| && states[i].Row().matching.InDeletion()
    ensures states[j].Row().matching.InDeletion()
    ensures Frozen(states[i].Row(), states[j].Row()) && states[j].core.db.log == states[i].core.db.log
    ensures StepOf(states[i].Row()) <= StepOf(states[j].Row())
  {
    if i < j {
      FrozenSince(states, i, j - 1);
      assert Advances(states[j - 1].core, states[j].core);
    }
  }

  /** However stale, a runner's snapshot names the right wallet, deployment and deleting actor. */
  lemma StaleSnapshotsAreRight(states: seq<State>, steps: seq<Step>, i: nat, rid: nat)
    requires IsRun(states, steps) && i < |states| && rid in states[i].runners
    ensures var snap, row := states[i].runners[rid].snap, states[i].Row();
      && row.matching.InDeletion() && Frozen(snap, row)
      && snap.namespace == row.namespace && CappNameFor(snap) == CappNameFor(row) == CappName(row.id)
      && snap.updatedBy == row.updatedBy
  {
    RunKeepsInv(states, steps, i);
    assert RunnerOk(states[i].core, states[i].runners[rid]);
  }

  // --- claim fencing -------------------------------------------------------------------

  lemma {:induction false} DeadlinesGrow(states: seq<State>, i: nat, j: nat)
    requires IsTrace(states) && i <= j < |states|
    ensures states[i].core.deadlines <= states[j].core.deadlines
  {
    if i < j {
      DeadlinesGrow(states, i, j - 1);
      assert Advances(states[j - 1].core, states[j].core);
    }
  }

  /** A claim found on the row has been on it ever since it was taken. */
  lemma {:induction false} HeldWithoutBreak(states: seq<State>, i: nat, k: nat, j: nat, d: Deadline)
    requires IsTrace(states) && i <= k <= j < |states|
    requires d in states[i].core.deadlines && Holds(states[j].Row(), d)
    ensures Holds(states[k].Row(), d)
    decreases j
  {
    if k < j {
      DeadlinesGrow(states, i, j - 1);
      assert Advances(states[j - 1].core, states[j].core);
      HeldWithoutBreak(states, i, k, j - 1, d);
    }
  }

  /** The edit in `st` that is the edit `e` later, its phase aside. */
  ghost predicate IsLive(st: State, eid: nat, e: EditActor) {
    eid in st.edits && st.edits[eid] == e.(phase := st.edits[eid].phase)
  }

  lemma {:induction false} LiveBack(states: seq<State>, k: nat, j: nat, eid: nat, e: EditActor)
    requires k <= j < |states| && IsLive(states[j], eid, e)
    requires forall m | k <= m < j ::
      EditsOlder(states[m], states[m + 1]) && e.claim.deadline in states[m].core.deadlines
    ensures IsLive(states[k], eid, e)
    decreases j
  {
    if k < j {
      LiveBack(states, k, j - 1, eid, e);
    }
  }

  lemma LiveSince(states: seq<State>, i: nat, k: nat, j: nat, eid: nat)
    requires IsTrace(states) && i <= k <= j < |states|
    requires eid in states[j].edits && states[j].edits[eid].claim.deadline in states[i].core.deadlines
    ensures IsLive(states[k], eid, states[j].edits[eid])
  {
    forall m | k <= m < j ensures states[j].edits[eid].claim.deadline in states[m].core.deadlines {
      DeadlinesGrow(states, i, m);
    }
    LiveBack(states, k, j, eid, states[j].edits[eid]);
  }

  /** In a state where edit `eid`'s claim is held, the row is the claimed one, toggles aside. */
  lemma HeldRow(states: seq<State>, steps: seq<Step>, k: nat, eid: nat)
    requires IsRun(states, steps) && k < |states| && eid in states[k].edits
    requires Holds(states[k].Row(), states[k].edits[eid].claim.deadline)
    ensures var e := states[k].edits[eid];
      && Untoggled(Claimed(e.before, e.claim.deadline), states[k].Row())
      && states[k].core.Built() == e.builds
  {
    RunKeepsInv(states, steps, k);
    assert EditOk(states[k].core, states[k].edits[eid]);
  }

  /** The edit actor at its finish is the one its claim started. */
  lemma ActorOfTheClaim(states: seq<State>, steps: seq<Step>, i: nat, j: nat, eid: nat,
                        data: AutomationIn, actor: Actor, d: Deadline)
    requires IsRun(states, steps) && i < j < |states|
    requires steps[i] == EditBy(eid, Claim(data, actor, d))
    requires eid in states[j].edits && states[j].edits[eid].claim.deadline == d
    ensures states[j].edits[eid].data == data && states[j].edits[eid].actor == actor
    ensures states[j].edits[eid].before == states[i].Row()
  {
    RunIsTrace(states, steps);
    LiveSince(states, i + 1, i + 1, j, eid);
  }

  /** While the claim is held, all that has happened to the row since are toggles. */
  lemma HeldMeanwhile(states: seq<State>, steps: seq<Step>, i: nat, k: nat, j: nat, eid: nat,
                      data: AutomationIn, actor: Actor, d: Deadline)
    requires IsRun(states, steps) && i < k <= j < |states|
    requires steps[i] == EditBy(eid, Claim(data, actor, d))
    requires eid in states[j].edits && states[j].edits[eid].claim.deadline == d && Holds(states[j].Row(), d)
    ensures Holds(states[k].Row(), d) && Untoggled(Claimed(states[i].Row(), d), states[k].Row())
    ensures states[k].core.Built() == states[i].core.Built()
  {
    RunIsTrace(states, steps);
    HeldWithoutBreak(states, i + 1, k, j, d);
    LiveSince(states, i + 1, k, j, eid);
    LiveSince(states, i + 1, i + 1, j, eid);
    HeldRow(states, steps, k, eid);
  }

  /** A held claim's release restores the row the claim found, keeping the toggles. */
  lemma ReleaseRestores(states: seq<State>, steps: seq<Step>, i: nat, j: nat, eid: nat,
                        data: AutomationIn, actor: Actor, d: Deadline)
    requires IsRun(states, steps) && i < j < |steps|
    requires steps[i] == EditBy(eid, Claim(data, actor, d)) && steps[j] == EditBy(eid, Release)
    requires eid in states[j].edits && states[j].edits[eid].claim.deadline == d && Holds(states[j].Row(), d)
    ensures states[j + 1].core.db.log == states[j].core.db.log
    ensures states[j + 1].Row() == states[i].Row().(
              matching := states[j].Row().matching, indexGeneration := states[j].Row().indexGeneration,
              updatedBy := states[j].Row().updatedBy)
  {
    ActorOfTheClaim(states, steps, i, j, eid, data, actor, d);
    HeldRow(states, steps, j, eid);
    RunKeepsInv(states, steps, j);
    assert EditOk(states[j].core, states[j].edits[eid]);
  }

  /** A claim that was lost writes nothing, so it never alters a newer one. */
  lemma LostClaimWritesNothing(states: seq<State>, steps: seq<Step>, j: nat, eid: nat)
    requires IsRun(states, steps) && j < |steps| && eid in states[j].edits
    requires steps[j] == EditBy(eid, Finish) || steps[j] == EditBy(eid, Release)
    requires !Holds(states[j].Row(), states[j].edits[eid].claim.deadline)
    ensures states[j + 1].core == states[j].core
  {
  }

  /** An edit's finish or release writes only if its claim was held without a break since it was taken, toggles
      being all that happened to the row meanwhile; then a release restores the row the claim found, keeping
      the toggles. */
  lemma ClaimFencing(states: seq<State>, steps: seq<Step>, i: nat, j: nat, eid: nat,
                     data: AutomationIn, actor: Actor, d: Deadline)
    requires IsRun(states, steps) && i < j < |steps|
    requires steps[i] == EditBy(eid, Claim(data, actor, d))
    requires eid in states[j].edits && states[j].edits[eid].claim.deadline == d
    requires steps[j] == EditBy(eid, Finish) || steps[j] == EditBy(eid, Release)
    ensures Holds(states[j].Row(), d) ==> forall k | i < k <= j ::
      && Holds(states[k].Row(), d)
      && Untoggled(Claimed(states[i].Row(), d), states[k].Row())
      && states[k].core.Built() == states[i].core.Built()
    ensures Holds(states[j].Row(), d) && steps[j].edit.Release? ==>
      && states[j + 1].core.db.log == states[j].core.db.log
      && states[j + 1].Row() == states[i].Row().(
           matching := states[j].Row().matching, indexGeneration := states[j].Row().indexGeneration,
           updatedBy := states[j].Row().updatedBy)
    ensures !Holds(states[j].Row(), d) ==> states[j + 1].core == states[j].core
  {
    if !Holds(states[j].Row(), d) {
      LostClaimWritesNothing(states, steps, j, eid);
    } else {
      forall k | i < k <= j
        ensures Holds(states[k].Row(), d) && Untoggled(Claimed(states[i].Row(), d), states[k].Row())
        ensures states[k].core.Built() == states[i].core.Built()
      {
        HeldMeanwhile(states, steps, i, k, j, eid, data, actor, d);
      }
      if steps[j].edit.Release? {
        ReleaseRestores(states, steps, i, j, eid, data, actor, d);
      }
    }
  }

  /** A finish that writes turns the row its claim found into the edited one under the new commit, toggles
      committed in between kept, and logs that one request. */
  lemma FinishIsTheEdit(states: seq<State>, steps: seq<Step>, i: nat, j: nat, eid: nat,
                        data: AutomationIn, actor: Actor, d: Deadline)
    requires IsRun(states, steps) && i < j < |steps|
    requires steps[i] == EditBy(eid, Claim(data, actor, d)) && steps[j] == EditBy(eid, Finish)
    requires eid in states[j].edits && states[j].edits[eid].claim.deadline == d && Holds(states[j].Row(), d)
    ensures states[j].edits[eid].phase.Committed?
    ensures var sha := states[j].edits[eid].phase.sha;
      && states[j + 1].Row() == states[i].Row().(
           matching := states[j].Row().matching, indexGeneration := states[j].Row().indexGeneration,
           namespace := data.namespace, definition := states[j + 1].Row().definition, updatedBy := actor,
           build := Building, lockDeadline := Some(d), buildingSha := Some(sha))
      && StoredAs(states[j + 1].Row().definition, data)
      && states[j + 1].core.db.log == states[j].core.db.log + [Revision(Edit(sha), None, actor)]
  {
    ActorOfTheClaim(states, steps, i, j, eid, data, actor, d);
    HeldRow(states, steps, j, eid);
  }

  // --- cutovers never go backwards --------------------------------------------------------

  /** A log row that is a build outcome appears in the fold, dated by the requests before it. */
  lemma {:induction false} OutcomeIsDated(log: seq<Revision>, n: nat) returns (p: nat)
    requires n < |log| && (log[n].action.BuildSucceeded? || log[n].action.BuildFailure?)
    ensures p < |Replay(log).builds.outcomes|
    ensures Replay(log).builds.outcomes[p].sha == log[n].action.sha
    ensures Replay(log).builds.outcomes[p].requestedBefore == |Replay(log[..n]).builds.requests|
    ensures Replay(log[..n]).builds.requests <= Replay(log).builds.requests
  {
    var front := log[..|log| - 1];
    if n < |front| {
      assert front[..n] == log[..n];
      p := OutcomeIsDated(front, n);
    } else {
      p := |Replay(front).builds.outcomes|;
    }
  }

  /** At the instant of each outcome row, its commit is the newest requested one. */
  lemma {:induction false} OutcomeNamesNewest(log: seq<Revision>, shas: set<Sha>, n: nat)
    requires BuildsInv(Replay(log).builds, shas)
    requires n < |log| && (log[n].action.BuildSucceeded? || log[n].action.BuildFailure?)
    ensures NewestRequest(log[..n]) == Some(log[n].action.sha)
    ensures Replay(log[..n]).builds.requests <= Replay(log).builds.requests
  {
    var p := OutcomeIsDated(log, n);
    NewestIsReplayed(log[..n]);
  }

  /** The position of a requested commit among the requests. */
  function Position(requests: seq<Sha>, sha: Sha): (p: nat)
    requires sha in requests
    ensures p < |requests| && requests[p] == sha
  {
    if requests[0] == sha then 0 else 1 + Position(requests[1..], sha)
  }

  lemma {:induction false} RequestsGrow(log: seq<Revision>, n: nat, m: nat)
    requires n <= m <= |log|
    ensures |Replay(log[..n]).builds.requests| <= |Replay(log[..m]).builds.requests|
  {
    if n < m {
      RequestsGrow(log, n, m - 1);
      ReplayAppend(log[..m - 1], log[m - 1]);
      assert log[..m - 1] + [log[m - 1]] == log[..m];
    }
  }

  /** Each cutover is to the newest requested commit of its instant, so the requests that
      successive cutovers answer never go backwards. */
  lemma CutoversNeverGoBack(states: seq<State>, steps: seq<Step>, i: nat, n: nat, m: nat)
    requires IsRun(states, steps) && i < |states|
    requires n <= m < |states[i].core.db.log|
    requires states[i].core.db.log[n].action.BuildSucceeded? && states[i].core.db.log[m].action.BuildSucceeded?
    ensures var log := states[i].core.db.log; var requests := Replay(log).builds.requests;
      && NewestRequest(log[..n]) == Some(log[n].action.sha)
      && log[n].action.sha in requests && log[m].action.sha in requests
      && Position(requests, log[n].action.sha) <= Position(requests, log[m].action.sha)
  {
    RunKeepsInv(states, steps, i);
    var log := states[i].core.db.log;
    var requests := Replay(log).builds.requests;
    OutcomeNamesNewest(log, states[i].core.shas, n);
    OutcomeNamesNewest(log, states[i].core.shas, m);
    NewestIsReplayed(log[..n]);
    NewestIsReplayed(log[..m]);
    RequestsGrow(log, n, m);
    var p, q := |Replay(log[..n]).builds.requests| - 1, |Replay(log[..m]).builds.requests| - 1;
    assert requests[p] == log[n].action.sha && requests[q] == log[m].action.sha;
  }
}
