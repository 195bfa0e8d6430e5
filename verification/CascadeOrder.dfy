/** The cascade's checkpoints against the calls its runners made: any number of runners, each
    with a stale snapshot, failing or dying anywhere. */
module CascadeOrder {
  import opened Domain
  import opened ExternalWorld
  import opened Transactions
  import opened RowCore
  import opened Protocol
  import opened Invariant

  function CappKey(row: Row): Key { Key(row.namespace, CappName(row.id)) }
  function SecretKey(row: Row): Key { Key(row.namespace, RunAuthSecretName(row.id)) }

  /** How far an answered call takes a journal that has come as far as `p`. */
  function Advance(p: nat, call: Call, row: Row): nat {
    if !call.fate.Done? then p
    else if p == 0 && call.op == DeletesCapp(CappKey(row)) then 1
    else if p == 1 && call.op == DeletesSecret(SecretKey(row)) then 2
    else if p == 2 && call.op == ListsImages({}) then 3
    else if p == 3 && call.op == Archives(row.updatedBy) then 4
    else p
  }

  /** How many of Capp delete, Secret delete, inventory seen empty and archive the journal holds,
      in this order, on the row's own resources. */
  function Progress(journal: seq<Call>, row: Row): nat {
    if journal == [] then 0
    else Advance(Progress(journal[..|journal| - 1], row), journal[|journal| - 1], row)
  }

  lemma ProgressAppend(journal: seq<Call>, call: Call, row: Row)
    ensures Progress(journal + [call], row) == Advance(Progress(journal, row), call, row)
    ensures Progress(journal, row) <= Progress(journal + [call], row)
  {
    assert (journal + [call])[..|journal|] == journal;
  }

  /** The calls are on what a deletion leaves fixed of the row. */
  lemma {:induction false} ProgressFrozen(journal: seq<Call>, row: Row, row': Row)
    requires Frozen(row, row')
    ensures Progress(journal, row) == Progress(journal, row')
  {
    if journal != [] {
      ProgressFrozen(journal[..|journal| - 1], row, row');
    }
  }

  function Min(a: nat, b: nat): nat { if a < b then a else b }

  /** A checkpoint, and equally a runner about to write one, has its work in the journal. */
  predicate RunnerWorked(r: Runner, progress: nat) {
    && (r.pc.NeedsSecretDelete? ==> progress >= 1)
    && (r.pc.NeedsSave? ==> progress >= Min(r.pc.completed, 4))
  }

  /** No registry call precedes both CAPP deletes; no archive precedes an empty inventory. */
  ghost predicate CallsInOrder(journal: seq<Call>, row: Row) {
    forall n | 0 <= n < |journal| ::
      && (journal[n].op.ListsImages? || journal[n].op.DeletesImage? ==> Progress(journal[..n], row) >= 2)
      && (journal[n].op.Archives? ==> Progress(journal[..n], row) >= 3)
  }

  ghost predicate OrderInv(st: State) {
    && (!st.Row().matching.InDeletion() ==> st.journal == [])
    && (StepOf(st.Row()) >= 2 ==> Progress(st.journal, st.Row()) >= Min(StepOf(st.Row()), 4))
    && (forall rid | rid in st.runners :: RunnerWorked(st.runners[rid], Progress(st.journal, st.Row())))
    && CallsInOrder(st.journal, st.Row())
  }

  lemma CallsAppend(journal: seq<Call>, call: Call, row: Row)
    requires CallsInOrder(journal, row)
    requires call.op.ListsImages? || call.op.DeletesImage? ==> Progress(journal, row) >= 2
    requires call.op.Archives? ==> Progress(journal, row) >= 3
    ensures CallsInOrder(journal + [call], row)
  {
    var journal' := journal + [call];
    forall n | 0 <= n < |journal'|
      ensures journal'[n].op.ListsImages? || journal'[n].op.DeletesImage? ==> Progress(journal'[..n], row) >= 2
      ensures journal'[n].op.Archives? ==> Progress(journal'[..n], row) >= 3
    {
      assert n <= |journal| && journal'[..n] == journal[..n];
      assert journal[..|journal|] == journal;
    }
  }

  lemma CallsFrozen(journal: seq<Call>, row: Row, row': Row)
    requires CallsInOrder(journal, row) && Frozen(row, row')
    ensures CallsInOrder(journal, row')
  {
    forall n | 0 <= n < |journal| ensures Progress(journal[..n], row) == Progress(journal[..n], row') {
      ProgressFrozen(journal[..n], row, row');
    }
  }

  /** Steps that make no runner call. */
  lemma OrderStable(st: State, st': State)
    requires OrderInv(st) && st'.journal == st.journal
    requires KeepsDeletion(st.core, st'.core)
    requires StepOf(st'.Row()) >= 2 ==> Progress(st.journal, st.Row()) >= Min(StepOf(st'.Row()), 4)
    requires forall rid | rid in st'.runners :: RunnerWorked(st'.runners[rid], Progress(st.journal, st.Row()))
    ensures OrderInv(st')
  {
    if st.Row().matching.InDeletion() {
      ProgressFrozen(st.journal, st.Row(), st'.Row());
      CallsFrozen(st.journal, st.Row(), st'.Row());
    }
  }

  /** A runner's call extends the journal; what others count on only grows. */
  lemma OrderCall(st: State, st': State, rid: nat, call: Call)
    requires OrderInv(st) && rid in st.runners && st.Row().matching.InDeletion()
    requires st'.core == st.core && st'.journal == st.journal + [call]
    requires forall i | i in st'.runners && i != rid :: i in st.runners && st'.runners[i] == st.runners[i]
    requires rid in st'.runners ==>
      RunnerWorked(st'.runners[rid], Advance(Progress(st.journal, st.Row()), call, st.Row()))
    requires call.op.ListsImages? || call.op.DeletesImage? ==> Progress(st.journal, st.Row()) >= 2
    requires call.op.Archives? ==> Progress(st.journal, st.Row()) >= 3
    ensures OrderInv(st')
  {
    ProgressAppend(st.journal, call, st.Row());
    CallsAppend(st.journal, call, st.Row());
  }

  function CallOf(st: State, rid: nat, s: RunnerStep): Option<Call>
    requires RunnerEnabled(st, rid, s)
  {
    match s
    case RunDeleteCapp(fate) =>
      Some(Call(DeletesCapp(Key(st.runners[rid].snap.namespace, CappNameFor(st.runners[rid].snap))), fate))
    case RunDeleteSecret(fate) =>
      Some(Call(DeletesSecret(SecretKey(st.runners[rid].snap)), fate))
    case RunList(entries, fate) => Some(Call(ListsImages(set e | e in entries), fate))
    case RunDeleteImage(fate) => Some(Call(DeletesImage(st.runners[rid].pc.todo[0]), fate))
    case RunRelist(fate) => Some(Call(ListsImages(Inventory(st.world, st.runners[rid].snap.id)), fate))
    case RunArchive(fate) => Some(Call(Archives(st.runners[rid].snap.updatedBy), fate))
    case _ => None
  }

  lemma CallIsJournaled(st: State, rid: nat, s: RunnerStep)
    requires RunnerEnabled(st, rid, s)
    ensures var st' := RunnerApply(st, rid, s);
      if CallOf(st, rid, s).Some? then st'.core == st.core && st'.journal == st.journal + [CallOf(st, rid, s).value]
      else st'.journal == st.journal
  {
  }

  /** The row's own facts as a runner relies on them when it calls. */
  lemma CallingRunner(st: State, rid: nat, s: RunnerStep)
    requires CoreInv(st.core) && OrderInv(st) && RunnerEnabled(st, rid, s) && CallOf(st, rid, s).Some?
    requires rid in st.runners && RunnerOk(st.core, st.runners[rid])
    ensures var st' := RunnerApply(st, rid, s); var call := CallOf(st, rid, s).value;
      && (rid in st'.runners ==>
            RunnerWorked(st'.runners[rid], Advance(Progress(st.journal, st.Row()), call, st.Row())))
      && (call.op.ListsImages? || call.op.DeletesImage? ==> Progress(st.journal, st.Row()) >= 2)
      && (call.op.Archives? ==> Progress(st.journal, st.Row()) >= 3)
  {
    assert RunnerWorked(st.runners[rid], Progress(st.journal, st.Row()));
    assert CappNameFor(st.runners[rid].snap) == CappName(st.Row().id);
  }

  lemma QuietRunner(st: State, rid: nat, s: RunnerStep)
    requires CoreInv(st.core) && OrderInv(st) && RunnerEnabled(st, rid, s) && CallOf(st, rid, s).None?
    requires rid in st.runners ==> RunnerOk(st.core, st.runners[rid])
    ensures var st' := RunnerApply(st, rid, s);
      && (StepOf(st'.Row()) >= 2 ==> Progress(st.journal, st.Row()) >= Min(StepOf(st'.Row()), 4))
      && (rid in st'.runners ==> RunnerWorked(st'.runners[rid], Progress(st.journal, st.Row())))
  {
    if rid in st.runners {
      assert RunnerWorked(st.runners[rid], Progress(st.journal, st.Row()));
    }
  }

  lemma RunnerKeepsOrder(st: State, rid: nat, s: RunnerStep)
    requires CoreInv(st.core) && OrderInv(st) && RunnerEnabled(st, rid, s)
    requires rid in st.runners ==> RunnerOk(st.core, st.runners[rid])
    requires KeepsDeletion(st.core, RunnerApply(st, rid, s).core)
    ensures OrderInv(RunnerApply(st, rid, s))
  {
    OtherRunnersSame(st, rid, s);
    CallIsJournaled(st, rid, s);
    if CallOf(st, rid, s).Some? {
      CallingRunner(st, rid, s);
      OrderCall(st, RunnerApply(st, rid, s), rid, CallOf(st, rid, s).value);
    } else {
      QuietRunner(st, rid, s);
      OrderStable(st, RunnerApply(st, rid, s));
    }
  }

  /** Outside the cascade the step moves only at the admission of the delete. */
  predicate Uncalled(st: State, st': State) {
    && st'.journal == st.journal && st'.runners == st.runners
    && (StepOf(st'.Row()) == StepOf(st.Row()) || StepOf(st'.Row()) == 1)
  }

  lemma EditUncalled(st: State, eid: nat, s: EditStep)
    requires EditEnabled(st, eid, s)
    ensures Uncalled(st, EditApply(st, eid, s))
  {
  }

  lemma DeliveryUncalled(st: State, did: nat, s: DeliveryStep)
    requires DeliveryEnabled(st, did, s)
    ensures Uncalled(st, DeliveryApply(st, did, s))
  {
    DeliveryFrame(st, did, s);
    match s
    case Admit(_) =>
    case RecordFailure =>
    case CommitBuild(_) =>
    case _ =>
  }

  lemma DirectUncalled(st: State, s: DirectStep)
    requires DirectEnabled(st, s)
    ensures Uncalled(st, DirectApply(st, s))
  {
  }

  lemma OthersUncalled(st: State, s: Step)
    requires Enabled(st, s) && !s.RunnerBy?
    ensures Uncalled(st, Apply(st, s))
  {
    match s
    case EditBy(eid, e) => EditUncalled(st, eid, e);
    case DeliveryBy(did, d) => DeliveryUncalled(st, did, d);
    case Direct(d) => DirectUncalled(st, d);
  }

  lemma OthersKeepOrder(st: State, s: Step)
    requires Inv(st) && OrderInv(st) && Enabled(st, s) && !s.RunnerBy?
    ensures OrderInv(Apply(st, s))
  {
    StepGood(st, s);
    OthersUncalled(st, s);
    OrderStable(st, Apply(st, s));
  }

  lemma {:induction false} OrderKept(states: seq<State>, steps: seq<Step>, i: nat)
    requires IsRun(states, steps) && i < |states|
    ensures OrderInv(states[i])
    decreases i
  {
    if i > 0 {
      OrderKept(states, steps, i - 1);
      RunKeepsInv(states, steps, i - 1);
      var st, s := states[i - 1], steps[i - 1];
      if s.RunnerBy? {
        RunnerGood(st, s.rid, s.runner);
        RunnerKeepsOrder(st, s.rid, s.runner);
      } else {
        OthersKeepOrder(st, s);
      }
    }
  }

  // --- the theorems -----------------------------------------------------------------------

  /** The work behind a journal's progress: where each call of the order stands. */
  lemma {:induction false} ProgressIsASubsequence(journal: seq<Call>, row: Row) returns (at: seq<nat>)
    ensures |at| == Progress(journal, row) <= 4
    ensures forall k | 0 <= k < |at| :: at[k] < |journal| && journal[at[k]].fate.Done?
    ensures forall k, l | 0 <= k < l < |at| :: at[k] < at[l]
    ensures |at| > 0 ==> journal[at[0]].op == DeletesCapp(CappKey(row))
    ensures |at| > 1 ==> journal[at[1]].op == DeletesSecret(SecretKey(row))
    ensures |at| > 2 ==> journal[at[2]].op == ListsImages({})
    ensures |at| > 3 ==> journal[at[3]].op == Archives(row.updatedBy)
  {
    if journal == [] {
      at := [];
    } else {
      var front := journal[..|journal| - 1];
      at := ProgressIsASubsequence(front, row);
      if Progress(journal, row) > Progress(front, row) {
        at := at + [|journal| - 1];
      }
    }
  }

  /** A checkpoint k means every external operation of the steps up to k was completed, in the order
      Capp delete, Secret delete, inventory seen empty, archive; no registry call came before both
      CAPP deletes and no archive before an empty inventory. */
  lemma CheckpointsFollowTheWork(states: seq<State>, steps: seq<Step>, i: nat)
    requires IsRun(states, steps) && i < |states|
    ensures var row := states[i].Row();
      && (row.cascadeStep == Some(2) ==> Progress(states[i].journal, row) >= 2)
      && (row.cascadeStep == Some(3) ==> Progress(states[i].journal, row) >= 3)
      && (row.cascadeStep == Some(4) || row.cascadeStep == Some(5) ==> Progress(states[i].journal, row) == 4)
    ensures CallsInOrder(states[i].journal, states[i].Row())
  {
    OrderKept(states, steps, i);
    var _ := ProgressIsASubsequence(states[i].journal, states[i].Row());
  }

  lemma SaveIsOneStep(c: Core, completed: nat)
    requires completed >= 1 && DeletionInv(c.db.row)
    ensures var step' := StepOf(SaveCore(c, completed).db.row);
      step' == StepOf(c.db.row) || step' == StepOf(c.db.row) + 1
  {
  }

  /** The checkpoint moves from k-1 to k or not at all. */
  lemma StepMovesByOne(states: seq<State>, steps: seq<Step>, i: nat)
    requires IsRun(states, steps) && i < |steps|
    ensures StepOf(states[i + 1].Row()) == StepOf(states[i].Row())
         || StepOf(states[i + 1].Row()) == StepOf(states[i].Row()) + 1
  {
    RunKeepsInv(states, steps, i);
    StepGood(states[i], steps[i]);
    if steps[i].RunnerBy? {
      RunnerMovesByOne(states[i], steps[i].rid, steps[i].runner);
    } else {
      OthersUncalled(states[i], steps[i]);
    }
  }

  lemma RunnerMovesByOne(st: State, rid: nat, s: RunnerStep)
    requires RunnerEnabled(st, rid, s) && DeletionInv(st.Row())
    ensures var step' := StepOf(RunnerApply(st, rid, s).Row());
      step' == StepOf(st.Row()) || step' == StepOf(st.Row()) + 1
  {
    if s.Save? {
      SaveIsOneStep(st.core, NextSave(st.runners[rid]).value);
    }
  }

  /** Every error-free pass raised the step the runner next observed: it makes fewer passes than the
      step it observes, so at most five in all, and while deleting it always has a next step to run. */
  lemma RunnersMakeProgress(states: seq<State>, steps: seq<Step>, i: nat, rid: nat)
    requires IsRun(states, steps) && i < |states| && rid in states[i].runners
    ensures var r := states[i].runners[rid];
      && r.passes < StepOf(r.snap) <= STEP_DELETED
      && (r.pc.Saved? ==> StepOf(r.snap) < StepOf(states[i].Row()))
      && (r.snap.matching.Deleting? ==> STEP_MARKED_DELETING < StepOf(r.snap) + 1 <= STEP_DELETED)
  {
    RunKeepsInv(states, steps, i);
    assert RunnerOk(states[i].core, states[i].runners[rid]);
  }
}
