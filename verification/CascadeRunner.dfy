/** One cascade attempt as the service runs it, step by step, while everyone else keeps acting
    between any two of its calls. */
module CascadeRunner {
  import opened Domain
  import opened ExternalWorld
  import opened Transactions
  import opened RowCore
  import opened Protocol
  import opened Invariant
  import opened CascadeOrder
  import opened Convergence

  datatype CascadeError =
    | CappDeleteFailed
    | RunAuthSecretDeleteFailed
    | RegistryListFailed
    | RegistryDeleteFailed
    | RegistryInventoryNotEmpty
    | GitArchiveFailed
    | CheckpointFailed
    | NoProgress

  datatype CascadeResult =
    | Conflict
    | ReadFailed                // reading the row failed
    | Progress(matching: MatchingState, step: Option<nat>, error: Option<CascadeError>)

  // --- what an attempt leaves behind -------------------------------------------------------------

  /** `own` are positions in the journal, in order. */
  ghost predicate InJournal(own: seq<nat>, journal: seq<Call>) {
    && (forall k | 0 <= k < |own| :: own[k] < |journal|)
    && (forall k, l | 0 <= k < l < |own| :: own[k] < own[l])
  }

  ghost function CallsAt(own: seq<nat>, journal: seq<Call>): seq<Call>
    requires InJournal(own, journal)
  {
    seq(|own|, k requires 0 <= k < |own| => journal[own[k]])
  }

  lemma CallsLater(own: seq<nat>, journal: seq<Call>, journal': seq<Call>)
    requires InJournal(own, journal) && journal <= journal'
    ensures InJournal(own, journal') && CallsAt(own, journal') == CallsAt(own, journal)
  {
  }

  ghost function OneOrNone(call: Option<Call>): seq<Call> { if call.Some? then [call.value] else [] }

  ghost function OwnAfter(own: seq<nat>, journal: seq<Call>, call: Option<Call>): seq<nat> {
    if call.Some? then own + [|journal|] else own
  }

  lemma CallsAppended(own: seq<nat>, journal: seq<Call>, call: Option<Call>)
    requires InJournal(own, journal)
    ensures InJournal(OwnAfter(own, journal, call), journal + OneOrNone(call))
    ensures CallsAt(OwnAfter(own, journal, call), journal + OneOrNone(call)) == CallsAt(own, journal) + OneOrNone(call)
  {
  }

  /** How a deletion in progress moves on: the row frozen but for its steps, the journal longer, and `base`,
      the world the cascade converges from, less what others took away. */
  ghost predicate MovesOn(row: Row, st: State, base: Option<World>, st': State, base': Option<World>) {
    && st.Row().matching.InDeletion() && st'.Row().matching.InDeletion()
    && Frozen(st.Row(), st'.Row()) && StepOf(st.Row()) <= StepOf(st'.Row())
    && st.journal <= st'.journal
    && (base.Some? <==> base'.Some?)
    && (base.Some? ==> OnlyOwnGoes(row, base.value, base'.value))
  }

  lemma MovesOnOn(row: Row, a: State, u: Option<World>, b: State, v: Option<World>, c: State, w: Option<World>)
    requires MovesOn(row, a, u, b, v) && MovesOn(row, b, v, c, w)
    ensures MovesOn(row, a, u, c, w)
  {
    if u.Some? {
      OnlyOwnGoesOn(row, u.value, v.value, w.value);
    }
  }

  /** What holds while nobody adds anything. */
  ghost predicate Tame(st: State, base: Option<World>, row: Row, rid: nat) {
    st.Row().matching.InDeletion() ==> PurgeOk(st, rid) && (base.Some? ==> Converging(base.value, row, st))
  }

  lemma RunnerKeepsTame(st: State, base: Option<World>, row: Row, own: nat, rid: nat, s: RunnerStep)
    requires Inv(st) && Tame(st, base, row, own) && RunnerEnabled(st, rid, s) && st.Row().matching.InDeletion()
    requires KeepsDeletion(st.core, RunnerApply(st, rid, s).core)
    ensures Tame(RunnerApply(st, rid, s), base, row, own)
  {
    assert rid in st.runners ==> RunnerOk(st.core, st.runners[rid]);
    RunnerKeepsPurge(st, rid, s, own);
    if base.Some? {
      RunnerConverges(base.value, st, rid, s);
    }
  }

  lemma OutsideKeepsTame(st: State, base: Option<World>, row: Row, own: nat, s: Step) returns (base': Option<World>)
    requires Inv(st) && Tame(st, base, row, own) && Enabled(st, s) && st.Row().matching.InDeletion()
    requires !s.RunnerBy? && AddsNothing(st.world, Apply(st, s).world)
    ensures Tame(Apply(st, s), base', row, own) && (base.Some? <==> base'.Some?)
    ensures base.Some? ==> OnlyOwnGoes(row, base.value, base'.value)
  {
    OutsideKeepsPurge(st, s, own);
    base' := None;
    if base.Some? {
      var w := OutsideConverges(base.value, row, st, s);
      base' := Some(w);
    }
  }

  lemma RunnerMovesOn(row: Row, st: State, base: Option<World>, rid: nat, s: RunnerStep)
    requires Inv(st) && RunnerEnabled(st, rid, s) && st.Row().matching.InDeletion()
    ensures MovesOn(row, st, base, RunnerApply(st, rid, s), base)
    ensures KeepsDeletion(st.core, RunnerApply(st, rid, s).core)
  {
    assert rid in st.runners ==> RunnerOk(st.core, st.runners[rid]);
    RunnerGood(st, rid, s);
    CallIsJournaled(st, rid, s);
  }

  /** Everything the service keeps, over one step of a runner. */
  lemma RunnerServes(row: Row, first: State, firstBase: Option<World>, st: State, base: Option<World>, calm: bool,
                     own: nat, rid: nat, s: RunnerStep)
    requires Inv(st) && MovesOn(row, first, firstBase, st, base) && (calm ==> Tame(st, base, row, own))
    requires RunnerEnabled(st, rid, s)
    ensures var st' := RunnerApply(st, rid, s);
      && Inv(st') && MovesOn(row, first, firstBase, st', base) && (calm ==> Tame(st', base, row, own))
      && st'.journal == st.journal + OneOrNone(CallOf(st, rid, s)) && StepOf(st.Row()) <= StepOf(st'.Row())
  {
    RunnerKeepsInv(st, rid, s);
    RunnerMovesOn(row, st, base, rid, s);
    CallIsJournaled(st, rid, s);
    if calm {
      RunnerKeepsTame(st, base, row, own, rid, s);
    }
    MovesOnOn(row, first, firstBase, st, base, RunnerApply(st, rid, s), base);
  }

  lemma OutsideMovesOn(row: Row, st: State, base: Option<World>, s: Step)
    requires Inv(st) && Enabled(st, s) && !s.RunnerBy? && st.Row().matching.InDeletion()
    ensures MovesOn(row, st, base, Apply(st, s), base)
  {
    StepGood(st, s);
    OthersUncalled(st, s);
  }

  lemma OtherMovesOn(row: Row, st: State, base: Option<World>, s: Step)
    requires Inv(st) && Enabled(st, s) && st.Row().matching.InDeletion()
    ensures MovesOn(row, st, base, Apply(st, s), base)
  {
    if s.RunnerBy? {
      RunnerMovesOn(row, st, base, s.rid, s.runner);
    } else {
      OutsideMovesOn(row, st, base, s);
    }
  }

  // --- the service ---------------------------------------------------------------------------------

  /** One attempt. */
  class Service {
    var st: State
    /** Whether this attempt's calls and checkpoint writes may fail, and whether anyone but cascade runners
        may add to the external world. */
    const callsMayFail: bool
    const othersMayAct: bool
    /** The runner that is this attempt. */
    const rid: nat
    /** The row the deletion admitted and, if the attempts since are known, the world they converge from. */
    ghost const row: Row
    ghost var base: Option<World>
    /** Where the attempt started. */
    ghost const first: State
    ghost const firstBase: Option<World>
    /** The positions of this attempt's own calls in the journal. */
    ghost var own: seq<nat>
    /** The cascade step in the latest snapshot. */
    ghost var seen: nat

    ghost predicate Valid()
      reads this
    {
      && Inv(st) && InJournal(own, st.journal)
      && (!othersMayAct ==> Tame(st, base, row, rid))
      && (first.Row().matching.InDeletion() ==>
            && MovesOn(row, first, firstBase, st, base)
            && StepOf(first.Row()) <= seen <= StepOf(st.Row()))
    }

    /** This attempt's own calls so far. */
    ghost function Calls(): seq<Call>
      reads this
      requires InJournal(own, st.journal)
    {
      CallsAt(own, st.journal)
    }

    constructor (st: State, rid: nat, callsMayFail: bool, othersMayAct: bool, ghost base: Option<World>, ghost row: Row)
      requires Inv(st) && rid !in st.runners
      requires !othersMayAct && st.Row().matching.InDeletion() && base.Some? ==> Converging(base.value, row, st)
      ensures Valid() && this.st == first == st && this.base == firstBase == base && this.row == row && own == []
      ensures seen == StepOf(st.Row())
      ensures this.callsMayFail == callsMayFail && this.othersMayAct == othersMayAct && this.rid == rid
    {
      this.rid := rid;
      this.st, this.callsMayFail, this.othersMayAct := st, callsMayFail, othersMayAct;
      this.base, this.row, first, firstBase, own, seen := base, row, st, base, [], StepOf(st.Row());
    }

    method CallFate() returns (fate: Fate)
      ensures !callsMayFail ==> fate.Done?
    {
      fate := Done;
      if callsMayFail {
        fate := *;
      }
    }

    // --- single steps ---------------------------------------------------------------------

    ghost predicate Running(r: Runner)
      reads this
    {
      && Valid() && first.Row().matching.InDeletion() && rid in st.runners && st.runners[rid] == r
      && seen == StepOf(r.snap)
    }

    /** One step of runner `rid`. */
    method Act(s: RunnerStep)
      requires Valid() && first.Row().matching.InDeletion() && RunnerEnabled(st, rid, s)
      modifies this`st, this`own
      ensures Valid() && st == RunnerApply(old(st), rid, s)
      ensures Calls() == old(Calls()) + OneOrNone(CallOf(old(st), rid, s))
    {
      RunnerServes(row, first, firstBase, st, base, !othersMayAct, rid, rid, s);
      CallsAppended(own, st.journal, CallOf(st, rid, s));
      own := OwnAfter(own, st.journal, CallOf(st, rid, s));
      st := RunnerApply(st, rid, s);
    }

    /** One step of someone else. */
    method OtherActs(s: Step)
      requires Valid() && first.Row().matching.InDeletion()
      requires rid in st.runners && Enabled(st, s) && !(s.RunnerBy? && s.rid == rid)
      requires othersMayAct || s.RunnerBy? || AddsNothing(st.world, Apply(st, s).world)
      modifies this`st, this`base
      ensures Valid() && rid in st.runners && st.runners[rid] == old(st).runners[rid] && Calls() == old(Calls())
    {
      ghost var before, from := st, base;
      OthersKeepRunner(st, s, rid);
      StepKeepsInv(st, s);
      OtherMovesOn(row, st, base, s);
      if !othersMayAct {
        if s.RunnerBy? {
          RunnerMovesOn(row, st, base, s.rid, s.runner);
          RunnerKeepsTame(st, base, row, rid, s.rid, s.runner);
        } else {
          base := OutsideKeepsTame(st, base, row, rid, s);
        }
      }
      st := Apply(st, s);
      CallsLater(own, before.journal, st.journal);
      MovesOnOn(row, first, firstBase, before, from, st, base);
    }

    /** Anything the others do, any number of times. */
    method Interfere(ghost r: Runner)
      requires Running(r)
      modifies this`st, this`base
      ensures Running(r) && Calls() == old(Calls())
    {
      var n: nat := *;
      while n > 0
        invariant Running(r) && Calls() == old(Calls())
      {
        var s: Step := *;
        if Enabled(st, s) && !(s.RunnerBy? && s.rid == rid)
           && (othersMayAct || s.RunnerBy? || AddsNothing(st.world, Apply(st, s).world)) {
          OtherActs(s);
        }
        n := n - 1;
      }
    }

    /** However stale, the snapshot names the row's own Capp. */
    lemma SnapshotNames(r: Runner)
      requires Running(r)
      ensures RunnerOk(st.core, r) && Key(r.snap.namespace, CappNameFor(r.snap)) == CappKey(r.snap)
    {
      assert RunnerOk(st.core, st.runners[rid]);
    }

    // --- the five steps ------------------------------------------------------------------

    /** Compare-and-set checkpoint, after whatever others did; lost or won, the attempt goes on. */
    method Save(ghost r: Runner) returns (error: Option<CascadeError>)
      requires Running(r) && NextSave(r).Some? && NextSave(r).value >= 1
      modifies this`st, this`base, this`own
      ensures Valid() && Calls() == old(Calls()) && (!callsMayFail ==> error.None?)
      ensures error.None? ==> Running(r.(pc := Saved))
      ensures error.Some? ==> error == Some(CheckpointFailed)
    {
      Interfere(r);
      var fate := CallFate();
      Act(Protocol.Save(fate));
      if !fate.Done? {
        return Some(CheckpointFailed);
      }
      return None;
    }

    /** 2a. */
    method CallDeleteCapp(ghost r: Runner) returns (fate: Fate)
      requires Running(r) && AtStep(r, STEP_MARKED_DELETING)
      modifies this`st, this`own
      ensures Valid() && (!callsMayFail ==> fate.Done?)
      ensures Calls() == old(Calls()) + [Call(DeletesCapp(CappKey(r.snap)), fate)]
      ensures fate.Done? ==> Running(r.(pc := NeedsSecretDelete))
    {
      SnapshotNames(r);
      fate := CallFate();
      Act(RunDeleteCapp(fate));
    }

    /** 2b, after whatever others did. */
    method CallDeleteSecret(ghost r: Runner) returns (fate: Fate)
      requires Running(r) && r.pc.NeedsSecretDelete?
      modifies this`st, this`base, this`own
      ensures Valid() && (!callsMayFail ==> fate.Done?)
      ensures Calls() == old(Calls()) + [Call(DeletesSecret(SecretKey(r.snap)), fate)]
      ensures fate.Done? ==> Running(r.(pc := NeedsSave(STEP_CAPP_RESOURCES_DELETED)))
    {
      Interfere(r);
      fate := CallFate();
      Act(RunDeleteSecret(fate));
    }

    /** 2a and 2b, always both and in this order, then the checkpoint; `fate` is how the last call ended. */
    method StepDeleteCappResources(ghost r: Runner) returns (error: Option<CascadeError>, fate: Fate)
      requires Running(r) && AtStep(r, STEP_MARKED_DELETING)
      modifies this`st, this`base, this`own
      ensures Valid() && (!callsMayFail ==> error.None?)
      ensures error.None? ==> Running(r.(pc := Saved))
      ensures error.Some? ==> error.value in {CappDeleteFailed, RunAuthSecretDeleteFailed, CheckpointFailed}
      ensures fate.Done? <==> error != Some(CappDeleteFailed) && error != Some(RunAuthSecretDeleteFailed)
      ensures Calls() == old(Calls()) + CappCalls(r.snap, error != Some(CappDeleteFailed), fate)
    {
      fate := CallDeleteCapp(r);
      if !fate.Done? {
        return Some(CappDeleteFailed), fate;
      }
      fate := CallDeleteSecret(r.(pc := NeedsSecretDelete));
      if !fate.Done? {
        return Some(RunAuthSecretDeleteFailed), fate;
      }
      error := Save(r.(pc := NeedsSave(STEP_CAPP_RESOURCES_DELETED)));
    }

    /** The registry's listing, in some order. */
    method Listing(id: Uuid) returns (entries: seq<string>)
      ensures (set e | e in entries) == Inventory(st.world, id)
    {
      entries := [];
      var rest := Inventory(st.world, id);
      while rest != {}
        invariant (set e | e in entries) + rest == Inventory(st.world, id)
        decreases |rest|
      {
        var e :| e in rest;
        entries := entries + [e];
        rest := rest - {e};
      }
    }

    method CallList(ghost r: Runner) returns (entries: seq<string>, fate: Fate)
      requires Running(r) && AtStep(r, STEP_CAPP_RESOURCES_DELETED)
      modifies this`st, this`own
      ensures Valid() && (!callsMayFail ==> fate.Done?)
      ensures Calls() == old(Calls()) + [Call(ListsImages(set e | e in entries), fate)]
      ensures fate.Done? ==> Running(r.(pc := Purging(entries)))
    {
      entries := Listing(st.runners[rid].snap.id);
      fate := CallFate();
      Act(RunList(entries, fate));
    }

    /** Delete the listed entries, one call each, up to the first failure. */
    method PurgeEntries(entries: seq<string>, ghost r: Runner) returns (n: nat, fate: Fate)
      requires Running(r.(pc := Purging(entries)))
      modifies this`st, this`base, this`own
      ensures Valid() && (!callsMayFail ==> fate.Done?)
      ensures fate.Done? ==>
        n == |entries| && Running(r.(pc := Purging([]))) && Calls() == Purge(old(Calls()), entries, n)
      ensures !fate.Done? ==>
        n < |entries| && Calls() == Purge(old(Calls()), entries, n) + [Call(DeletesImage(entries[n]), fate)]
    {
      n, fate := 0, Done;
      assert entries[0..] == entries;
      while n < |entries|
        invariant 0 <= n <= |entries| && Running(r.(pc := Purging(entries[n..]))) && fate.Done?
        invariant Calls() == Purge(old(Calls()), entries, n)
      {
        assert entries[n..][0] == entries[n] && entries[n..][1..] == entries[n + 1..];
        fate := CallDeleteImage(entries[n..], r);
        if !fate.Done? {
          return;
        }
        n := n + 1;
      }
      assert entries[n..] == [];
    }

    method CallDeleteImage(todo: seq<string>, ghost r: Runner) returns (fate: Fate)
      requires Running(r.(pc := Purging(todo))) && todo != []
      modifies this`st, this`base, this`own
      ensures Valid() && (!callsMayFail ==> fate.Done?)
      ensures Calls() == old(Calls()) + [Call(DeletesImage(todo[0]), fate)]
      ensures fate.Done? ==> Running(r.(pc := Purging(todo[1..])))
    {
      Interfere(r.(pc := Purging(todo)));
      fate := CallFate();
      Act(RunDeleteImage(fate));
    }

    method CallRelist(ghost r: Runner) returns (remaining: set<string>, fate: Fate)
      requires Running(r) && r.pc == Purging([])
      modifies this`st, this`base, this`own
      ensures Valid() && (!callsMayFail ==> fate.Done?) && (!othersMayAct ==> remaining == {})
      ensures Calls() == old(Calls()) + [Call(ListsImages(remaining), fate)]
      ensures fate.Done? && remaining == {} ==> Running(r.(pc := NeedsSave(STEP_IMAGES_DELETED)))
    {
      Interfere(r);
      SnapshotNames(r);
      if !othersMayAct {
        RelistFindsNothing(st, rid);
      }
      remaining := Inventory(st.world, st.runners[rid].snap.id);
      fate := CallFate();
      Act(RunRelist(fate));
    }

    /** List, delete every entry listed, list again, and save only on an empty inventory. `listed` says whether
        the first listing answered, with `entries`; `n` entries were then deleted, before the call `last`. */
    method StepDeleteImages(ghost r: Runner)
      returns (error: Option<CascadeError>, listed: bool, entries: seq<string>, n: nat, ghost last: Call)
      requires Running(r) && AtStep(r, STEP_CAPP_RESOURCES_DELETED)
      modifies this`st, this`base, this`own
      ensures Valid() && (!callsMayFail && !othersMayAct ==> error.None?) && n <= |entries|
      ensures error.None? ==> Running(r.(pc := Saved))
      ensures error.Some? ==>
        error.value in {RegistryListFailed, RegistryDeleteFailed, RegistryInventoryNotEmpty, CheckpointFailed}
      ensures Calls() == (if listed then PurgeCalls(old(Calls()), entries, n) else old(Calls())) + [last]
      ensures error.None? || error == Some(CheckpointFailed) ==>
        listed && n == |entries| && last == Call(ListsImages({}), Done)
      ensures error == Some(RegistryInventoryNotEmpty) ==>
        listed && n == |entries| && last.op.ListsImages? && last.op.found != {}
      ensures error == Some(RegistryDeleteFailed) ==>
        listed && n < |entries| && last.op == DeletesImage(entries[n]) && !last.fate.Done?
      ensures error == Some(RegistryListFailed) ==>
        last.op.ListsImages? && !last.fate.Done? && (listed ==> n == |entries|)
    {
      var fate: Fate;
      entries, fate := CallList(r);
      listed, n, last := fate.Done?, 0, Call(ListsImages(set e | e in entries), fate);
      if !fate.Done? {
        error := Some(RegistryListFailed);
        return;
      }
      n, fate := PurgeEntries(entries, r);
      if !fate.Done? {
        error, last := Some(RegistryDeleteFailed), Call(DeletesImage(entries[n]), fate);
        return;
      }
      var remaining: set<string>;
      remaining, fate := CallRelist(r.(pc := Purging([])));
      last := Call(ListsImages(remaining), fate);
      if !fate.Done? {
        error := Some(RegistryListFailed);
        return;
      }
      if remaining != {} {
        error := Some(RegistryInventoryNotEmpty);
        return;
      }
      error := Save(r.(pc := NeedsSave(STEP_IMAGES_DELETED)));
    }

    /** Archive under the deleting actor, then the checkpoint. */
    method StepArchiveScript(ghost r: Runner) returns (error: Option<CascadeError>, fate: Fate)
      requires Running(r) && AtStep(r, STEP_IMAGES_DELETED)
      modifies this`st, this`base, this`own
      ensures Valid() && (!callsMayFail ==> error.None?)
      ensures error.None? ==> Running(r.(pc := Saved))
      ensures error.Some? ==> error.value in {GitArchiveFailed, CheckpointFailed}
      ensures fate.Done? <==> error != Some(GitArchiveFailed)
      ensures Calls() == old(Calls()) + [Call(Archives(r.snap.updatedBy), fate)]
    {
      fate := CallFate();
      Act(RunArchive(fate));
      if !fate.Done? {
        return Some(GitArchiveFailed), fate;
      }
      error := Save(r.(pc := NeedsSave(STEP_SCRIPT_ARCHIVED)));
    }

    /** The step after the one the snapshot names; there always is one while deleting. */
    method RunStep(ghost r: Runner) returns (error: Option<CascadeError>)
      requires Running(r) && r.pc.AtTop? && r.snap.matching.Deleting?
      modifies this`st, this`base, this`own
      ensures Valid() && (!callsMayFail && !othersMayAct ==> error.None?)
      ensures error.None? ==> Running(r.(pc := Saved))
      ensures error.Some? ==> error.value in CodesOf(StepOf(r.snap) + 1)
    {
      SnapshotNames(r);
      var completed := StepOf(st.runners[rid].snap);
      if completed == STEP_MARKED_DELETING {
        var e, _ := StepDeleteCappResources(r);
        error := e;
      } else if completed == STEP_CAPP_RESOURCES_DELETED {
        var e, _, _, _, _ := StepDeleteImages(r);
        error := e;
      } else if completed == STEP_IMAGES_DELETED {
        var e, _ := StepArchiveScript(r);
        error := e;
      } else {
        error := Save(r);
      }
    }

    // --- the loop ------------------------------------------------------------------------

    /** How an attempt may end: `deleted`; on the error of one step, reported with the last step it saw completed
        and a code of the next; or on a failed read. Without faults, and with nobody adding anything, it ends
        `deleted`, and from a known world in the world of one uninterrupted run. */
    ghost predicate Ended(result: CascadeResult)
      reads this
    {
      && Valid() && (result.Progress? || (result.ReadFailed? && callsMayFail))
      && (result.Progress? ==> (Completed(result) <==> result.error.None?))
      && (result.Progress? && result.error.Some? ==>
            && (callsMayFail || othersMayAct)
            && result.matching == Deleting && result.step == Some(seen)
            && StepOf(first.Row()) <= result.step.value <= StepOf(st.Row())
            && result.error.value in CodesOf(result.step.value + 1))
      && (Completed(result) ==>
            result.matching == st.Row().matching == Deleted && result.step == Some(STEP_DELETED))
      && (Completed(result) && !othersMayAct && base.Some? ==> st.world == CascadedWorld(base.value, row))
    }

    /** The snapshot says `deleted`. */
    method Finish(ghost r: Runner) returns (result: CascadeResult)
      requires Running(r) && r.pc.AtTop? && r.snap.matching.Deleted?
      modifies this`st, this`own
      ensures Ended(result)
    {
      SnapshotNames(r);
      var snap := st.runners[rid].snap;
      if !othersMayAct && base.Some? {
        ConvergedWorld(base.value, row, st);
      }
      Act(Stop);
      return Progress(snap.matching, snap.cascadeStep, None);
    }

    /** One pass over a snapshot that says `deleting`: an error ends the attempt; otherwise a new
        snapshot is taken, the checkpoint won or lost. */
    method Pass(ghost r: Runner) returns (ended: Option<CascadeResult>)
      requires Running(r) && r.pc.AtTop? && r.snap.matching.Deleting?
      modifies this`st, this`base, this`own, this`seen
      ensures ended.Some? ==> Ended(ended.value)
      ensures ended.None? ==> rid in st.runners && Running(Runner(st.runners[rid].snap, r.passes + 1, AtTop))
    {
      SnapshotNames(r);
      var snap := st.runners[rid].snap;
      var error := RunStep(r);
      if error.Some? {
        return Some(Progress(snap.matching, snap.cascadeStep, error));
      }
      var reread := Refresh(r.(pc := Saved));
      return if reread then None else Some(ReadFailed);
    }

    /** The next snapshot, unless reading it fails. */
    method Refresh(ghost r: Runner) returns (reread: bool)
      requires Running(r) && r.pc.Saved?
      modifies this`st, this`base, this`own, this`seen
      ensures Valid() && (!callsMayFail ==> reread)
      ensures reread ==> rid in st.runners && Running(Runner(st.runners[rid].snap, r.passes + 1, AtTop))
    {
      Interfere(r);
      var fate := CallFate();
      if fate.Done? {
        Act(Reread);
        seen := StepOf(st.Row());
      } else {
        Act(Stop);
      }
      reread := fate.Done?;
    }

    lemma PassesBounded(r: Runner)
      requires Running(r)
      ensures r.passes < StepOf(r.snap) <= STEP_DELETED && r.snap.matching.InDeletion()
    {
      SnapshotNames(r);
    }

    /** The loop, from its first snapshot. */
    method RunPasses(ghost start: Runner) returns (result: CascadeResult, passes: nat)
      requires Running(start) && start.pc.AtTop? && start.passes == 0
      modifies this`st, this`base, this`own, this`seen
      ensures Ended(result) && passes < STEP_DELETED
    {
      passes := 0;
      ghost var r := start;
      while passes < MAX_ITERATIONS
        invariant Running(r) && r.pc.AtTop? && r.passes == passes
      {
        Interfere(r);
        PassesBounded(r);
        if st.runners[rid].snap.matching.Deleted? {
          result := Finish(r);
          return;
        }
        var ended := Pass(r);
        if ended.Some? {
          return ended.value, passes;
        }
        r := st.runners[rid];
        passes := passes + 1;
      }
      PassesBounded(r);
      assert false;
      result := Progress(Deleting, None, Some(NoProgress));
    }

    /** `run_cascade`: it refuses a row that is not being deleted; otherwise it ends as above after fewer
        than five passes, so never for lack of progress. */
    method RunCascade() returns (result: CascadeResult, passes: nat)
      requires Valid() && rid !in st.runners && st == first && seen == StepOf(first.Row())
      modifies this`st, this`base, this`own, this`seen
      ensures !first.Row().matching.InDeletion() ==>
        (result.Conflict? || (result.ReadFailed? && callsMayFail)) && st == old(st)
      ensures first.Row().matching.InDeletion() ==> Ended(result) && passes < STEP_DELETED < MAX_ITERATIONS
    {
      passes := 0;
      var fate := CallFate();
      if !fate.Done? {
        result := ReadFailed;
      } else if !st.Row().matching.InDeletion() {
        result := Conflict;
      } else {
        Act(Start);
        result, passes := RunPasses(st.runners[rid]);
      }
    }
  }

  predicate Completed(result: CascadeResult) { result.Progress? && result.matching == Deleted }

  /** The errors a step can end on. */
  function CodesOf(step: nat): set<CascadeError> {
    match step
    case 1 => {CheckpointFailed}
    case 2 => {CappDeleteFailed, RunAuthSecretDeleteFailed, CheckpointFailed}
    case 3 => {RegistryListFailed, RegistryDeleteFailed, RegistryInventoryNotEmpty, CheckpointFailed}
    case 4 => {GitArchiveFailed, CheckpointFailed}
    case 5 => {CheckpointFailed}
    case _ => {}
  }

  /** The calls of step 2, the last of them ending as `fate` says. */
  function CappCalls(snap: Row, cappGone: bool, fate: Fate): seq<Call> {
    if !cappGone then [Call(DeletesCapp(CappKey(snap)), fate)]
    else [Call(DeletesCapp(CappKey(snap)), Done), Call(DeletesSecret(SecretKey(snap)), fate)]
  }

  /** `calls` followed by the deletions of the first `n` entries. */
  function Purge(calls: seq<Call>, entries: seq<string>, n: nat): seq<Call>
    requires n <= |entries|
  {
    if n == 0 then calls else Purge(calls, entries, n - 1) + [Call(DeletesImage(entries[n - 1]), Done)]
  }

  /** `calls` followed by a listing and the deletions of its first `n` entries. */
  function PurgeCalls(calls: seq<Call>, entries: seq<string>, n: nat): seq<Call>
    requires n <= |entries|
  {
    Purge(calls + [Call(ListsImages(set e | e in entries), Done)], entries, n)
  }

  /** After any sequence of attempts, interrupted anywhere and overlapping at will, with others who add
      nothing, one attempt without failures ends `deleted` in the external world one uninterrupted cascade
      makes of the admitted world: less, at most, what others took away of the automation's own in other
      wallets. */
  method FinishAttempts(st: State, rid: nat, ghost states: seq<State>, ghost steps: seq<Step>)
    returns (result: CascadeResult, after: State, ghost base: World)
    requires IsCascadeRun(states, steps) && Inv(states[0]) && JustAdmitted(states[0]) && states[|steps|] == st
    requires rid !in st.runners
    ensures result == Progress(Deleted, Some(STEP_DELETED), None) && after.Row().matching.Deleted?
    ensures OnlyOwnGoes(states[0].Row(), states[0].world, base)
    ensures after.world == CascadedWorld(base, states[0].Row())
    ensures NothingStranded(states[0].world, states[0].Row()) ==>
      after.world == CascadedWorld(states[0].world, states[0].Row())
  {
    ghost var start := AttemptsConverge(states, steps, |steps|);
    var service := new Service(st, rid, false, false, Some(start), states[0].Row());
    var passes: nat;
    result, passes := service.RunCascade();
    after, base := service.st, service.base.value;
    OnlyOwnGoesOn(states[0].Row(), states[0].world, start, base);
    if NothingStranded(states[0].world, states[0].Row()) {
      SameCascade(states[0].world, base, states[0].Row());
    }
  }

  lemma OthersKeepRunner(st: State, s: Step, rid: nat)
    requires Enabled(st, s) && rid in st.runners && !(s.RunnerBy? && s.rid == rid)
    ensures rid in Apply(st, s).runners && Apply(st, s).runners[rid] == st.runners[rid]
  {
    match s
    case EditBy(eid, e) =>
    case DeliveryBy(did, d) => DeliveryFrame(st, did, d);
    case RunnerBy(other, r) => OtherRunnerKept(st, other, r, rid);
    case Direct(d) =>
  }

  lemma OtherRunnerKept(st: State, other: nat, s: RunnerStep, rid: nat)
    requires RunnerEnabled(st, other, s) && rid in st.runners && other != rid
    ensures rid in RunnerApply(st, other, s).runners && RunnerApply(st, other, s).runners[rid] == st.runners[rid]
  {
  }
}
