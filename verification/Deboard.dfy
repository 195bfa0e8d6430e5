/** Deboarding a wallet: the single-automation delete fanned out over every child of a tenant's
    wallet, isolated from each child's failures, while others keep acting on the children. Each child
    is a whole protocol state, and each delete is the cascade attempt of `CascadeRunner`. */
module Deboard {
  import opened Domain
  import opened ExternalWorld
  import opened Transactions
  import opened RowCore
  import opened Protocol
  import opened Invariant
  import opened Convergence
  import opened CascadeRunner
  import Witnesses

  type Children = map<Uuid, State>

  // --- what other processes may do to a child -----------------------------------------------

  /** Deletion is one-way and freezes everything but its own progress. */
  predicate LaterRow(r: Row, r': Row) {
    && r'.id == r.id
    && (r.matching.InDeletion() ==> r'.matching.InDeletion() && Frozen(r, r') && StepOf(r) <= StepOf(r'))
  }

  ghost predicate Later(c: Children, c': Children) {
    c'.Keys == c.Keys && forall id | id in c :: LaterRow(c[id].Row(), c'[id].Row())
  }

  /** This is what every step of the protocol does to its row. */
  lemma EveryStepIsLater(st: State, s: Step)
    requires Inv(st) && Enabled(st, s)
    ensures LaterRow(st.Row(), Apply(st, s).Row())
  {
    StepGood(st, s);
  }

  lemma LaterOn(a: Children, b: Children, c: Children)
    requires Later(a, b) && Later(b, c)
    ensures Later(a, c)
  {
  }

  ghost predicate SoundAt(c: Children, id: Uuid) { id in c ==> Inv(c[id]) }

  /** Every child meets the protocol's invariant. */
  ghost predicate AllSound(c: Children) { forall id :: SoundAt(c, id) }

  lemma SoundUpdate(c: Children, id: Uuid, st: State)
    requires AllSound(c) && id in c && Inv(st) && LaterRow(c[id].Row(), st.Row())
    ensures AllSound(c[id := st]) && Later(c, c[id := st])
  {
    var c' := c[id := st];
    forall k ensures SoundAt(c', k) {
      if k != id && k in c {
        assert SoundAt(c, k) && c'[k] == c[k];
      }
    }
  }

  lemma StepSound(c: Children, id: Uuid, s: Step)
    requires AllSound(c) && id in c && Enabled(c[id], s)
    ensures AllSound(c[id := Apply(c[id], s)]) && Later(c, c[id := Apply(c[id], s)])
  {
    assert SoundAt(c, id);
    EveryStepIsLater(c[id], s);
    StepKeepsInv(c[id], s);
    SoundUpdate(c, id, Apply(c[id], s));
  }

  // --- the scan and the lists ----------------------------------------------------------------

  predicate Scanned(row: Row, tenant: string, wallet: Wallet) {
    row.tenant == tenant && row.namespace == wallet && !row.matching.Deleted?
  }

  /** The ids the query returns, in the table's order. */
  function Scan(children: Children, order: seq<Uuid>, tenant: string, wallet: Wallet): seq<Uuid> {
    if order == [] then []
    else
      var rest := Scan(children, order[..|order| - 1], tenant, wallet);
      var id := order[|order| - 1];
      if id in children && Scanned(children[id].Row(), tenant, wallet) then rest + [id] else rest
  }

  lemma {:induction false} ScanIsExact(children: Children, order: seq<Uuid>, tenant: string, wallet: Wallet)
    ensures forall id :: id in Scan(children, order, tenant, wallet) <==>
      && id in order && id in children && children[id].Row().tenant == tenant
      && children[id].Row().namespace == wallet && children[id].Row().matching != Deleted
    ensures Distinct(order) ==> Distinct(Scan(children, order, tenant, wallet))
  {
    if order != [] {
      ScanIsExact(children, order[..|order| - 1], tenant, wallet);
    }
  }

  lemma ScannedChildren(children: Children, order: seq<Uuid>, tenant: string, wallet: Wallet)
    requires Distinct(order)
    ensures var scan := Scan(children, order, tenant, wallet);
      && Distinct(scan)
      && forall i | 0 <= i < |scan| :: scan[i] in children && children[scan[i]].Row().tenant == tenant
  {
    ScanIsExact(children, order, tenant, wallet);
  }

  /** The scan keeps the table's order: it stands in it at increasing positions. */
  lemma {:induction false} ScanInOrder(children: Children, order: seq<Uuid>, tenant: string, wallet: Wallet)
    returns (at: seq<nat>)
    ensures var scan := Scan(children, order, tenant, wallet);
      && |at| == |scan| && (forall i | 0 <= i < |at| :: at[i] < |order| && order[at[i]] == scan[i])
      && (forall i, j | 0 <= i < j < |at| :: at[i] < at[j])
  {
    at := [];
    if order != [] {
      at := ScanInOrder(children, order[..|order| - 1], tenant, wallet);
      var id := order[|order| - 1];
      if id in children && Scanned(children[id].Row(), tenant, wallet) {
        at := at + [|order| - 1];
      }
    }
  }

  ghost predicate Distinct(s: seq<Uuid>) { forall i, j | 0 <= i < j < |s| :: s[i] != s[j] }

  datatype Verdict = WasDeleted | InProgress | SkippedBuilding | NotAdmitted

  datatype Summary = Summary(deleted: seq<Uuid>, inProgress: seq<Uuid>, skippedBuilding: seq<Uuid>, failed: seq<Uuid>)

  /** The ids with verdict `v`, in scan order. */
  function With(ids: seq<Uuid>, verdicts: seq<Verdict>, v: Verdict): seq<Uuid>
    requires |ids| == |verdicts|
  {
    if ids == [] then []
    else
      var rest := With(ids[..|ids| - 1], verdicts[..|ids| - 1], v);
      if verdicts[|ids| - 1] == v then rest + [ids[|ids| - 1]] else rest
  }

  function SummaryOf(ids: seq<Uuid>, verdicts: seq<Verdict>): Summary
    requires |ids| == |verdicts|
  {
    Summary(With(ids, verdicts, WasDeleted), With(ids, verdicts, InProgress), With(ids, verdicts, SkippedBuilding),
            With(ids, verdicts, NotAdmitted))
  }

  /** Together the four lists hold every scanned id exactly as often as the scan does. */
  lemma {:induction false} ListsPartitionTheScan(ids: seq<Uuid>, verdicts: seq<Verdict>)
    requires |ids| == |verdicts|
    ensures var s := SummaryOf(ids, verdicts);
      multiset(ids) == multiset(s.deleted) + multiset(s.inProgress) + multiset(s.skippedBuilding) + multiset(s.failed)
  {
    if ids != [] {
      ListsPartitionTheScan(ids[..|ids| - 1], verdicts[..|ids| - 1]);
      assert ids == ids[..|ids| - 1] + [ids[|ids| - 1]];
    }
  }

  /** Each list is where its verdict was given, and keeps the scan's order. */
  lemma {:induction false} WithIsExact(ids: seq<Uuid>, verdicts: seq<Verdict>, v: Verdict)
    requires |ids| == |verdicts|
    ensures forall id :: id in With(ids, verdicts, v) <==> exists i | 0 <= i < |ids| :: ids[i] == id && verdicts[i] == v
  {
    if ids != [] {
      WithIsExact(ids[..|ids| - 1], verdicts[..|ids| - 1], v);
    }
  }

  lemma {:induction false} WithInOrder(ids: seq<Uuid>, verdicts: seq<Verdict>, v: Verdict) returns (at: seq<nat>)
    requires |ids| == |verdicts|
    ensures |at| == |With(ids, verdicts, v)|
    ensures forall i | 0 <= i < |at| ::
      at[i] < |ids| && ids[at[i]] == With(ids, verdicts, v)[i] && verdicts[at[i]] == v
    ensures forall i, j | 0 <= i < j < |at| :: at[i] < at[j]
  {
    at := [];
    if ids != [] {
      at := WithInOrder(ids[..|ids| - 1], verdicts[..|ids| - 1], v);
      if verdicts[|ids| - 1] == v {
        at := at + [|ids| - 1];
      }
    }
  }

  lemma WithAppend(ids: seq<Uuid>, verdicts: seq<Verdict>, id: Uuid, v: Verdict, w: Verdict)
    requires |ids| == |verdicts|
    ensures With(ids + [id], verdicts + [v], w)
         == if v == w then With(ids, verdicts, w) + [id] else With(ids, verdicts, w)
  {
    assert (ids + [id])[..|ids|] == ids && (verdicts + [v])[..|ids|] == verdicts;
  }

  // --- one child's admission --------------------------------------------------------------------

  datatype Admission = Begun | Building | Raised

  /** Where an admission may fail: taking the row lock or reading the row, or reading it back once the
      delete is committed. */
  datatype Fault = NoFault | BeforeCommit | AfterCommit

  function AdmitChild(st: State, tenant: string, actor: Actor, fault: Fault): (Admission, State) {
    if fault.BeforeCommit? || st.Row().tenant != tenant then (Raised, st)
    else if st.Row().matching.InDeletion() then (Begun, st)
    else if st.Row().build.Building? then (Admission.Building, st)
    else (if fault.AfterCommit? then Raised else Begun, DirectApply(st, BeginDelete(actor)))
  }

  lemma AdmitKeepsInv(st: State, tenant: string, actor: Actor, fault: Fault)
    requires Inv(st)
    ensures var (r, st') := AdmitChild(st, tenant, actor, fault);
      && Inv(st') && LaterRow(st.Row(), st'.Row())
      && (r.Begun? ==> st'.Row().matching.InDeletion())
      && (st' != st ==> JustAdmitted(st') && st'.world == st.world)
  {
    if !st.Row().matching.InDeletion() && !st.Row().build.Building? {
      DirectKeepsInv(st, BeginDelete(actor));
      DirectGood(st, BeginDelete(actor));
      AdmissionStartsIt(st, actor);
    }
  }

  lemma AdmitSound(c: Children, id: Uuid, tenant: string, actor: Actor, fault: Fault)
    requires AllSound(c) && id in c
    ensures var (r, st) := AdmitChild(c[id], tenant, actor, fault);
      && AllSound(c[id := st]) && Later(c, c[id := st])
      && (r.Begun? ==> st.Row().matching.InDeletion())
  {
    assert SoundAt(c, id);
    AdmitKeepsInv(c[id], tenant, actor, fault);
    SoundUpdate(c, id, AdmitChild(c[id], tenant, actor, fault).1);
  }

  /** The admission of child `id`, as it shows in the table and in what this pass has written. */
  ghost predicate AdmittedAs(c: Children, mine: set<Uuid>, id: Uuid, tenant: string, actor: Actor, fault: Fault,
                             r: Admission, c': Children, mine': set<Uuid>)
  {
    && id in c && id in c' && c' == c[id := c'[id]]
    && (r, c'[id]) == AdmitChild(c[id], tenant, actor, fault)
    && mine' == if c'[id] == c[id] then mine else mine + {id}
  }

  /** A child listed `failed` is left in deletion exactly when it already was or when its delete was
      committed before the error; only otherwise is it still active or inactive. */
  lemma FailedExactly(st: State, tenant: string, actor: Actor, fault: Fault)
    requires Inv(st) && st.Row().tenant == tenant && AdmitChild(st, tenant, actor, fault).0.Raised?
    ensures var st' := AdmitChild(st, tenant, actor, fault).1;
      st'.Row().matching.InDeletion() <==>
        st.Row().matching.InDeletion() || (fault.AfterCommit? && DeleteRefusal(st.Row()).None?)
  {
  }

  /** Both ways for a `failed` child to be in deletion: a reachable child, live until an error strikes once its
      delete is committed, and the same child met again while its row is busy. */
  lemma FailedButDeleting() returns (live: State, deleting: State)
    ensures Witnesses.Reachable(live, true) && !live.Row().matching.InDeletion()
    ensures AdmitChild(live, live.Row().tenant, Witnesses.WHO, AfterCommit) == (Raised, deleting)
    ensures deleting.Row().matching.InDeletion()
    ensures AdmitChild(deleting, live.Row().tenant, Witnesses.WHO, BeforeCommit) == (Raised, deleting)
  {
    Witnesses.JustBornIsReachable(true);
    Witnesses.ReachStep(Witnesses.JustBorn(), Direct(ReleaseLock(true)), true);
    live := DirectApply(Witnesses.JustBorn(), ReleaseLock(true));
    deleting := AdmitChild(live, live.Row().tenant, Witnesses.WHO, AfterCommit).1;
  }

  // --- verdicts -----------------------------------------------------------------------------------

  /** What a verdict says about the child's row. */
  ghost predicate Describes(v: Verdict, row: Row) {
    (v.WasDeleted? ==> row.matching.Deleted?) && (v.InProgress? ==> row.matching.InDeletion())
  }

  /** The verdict when nothing fails and nobody interferes. */
  function Expected(row: Row): Verdict { if DeleteRefusal(row).Some? then SkippedBuilding else WasDeleted }

  /** The row with the delete admitted. */
  function Doomed(st: State, actor: Actor): Row { DeleteBegun(st.core.db, actor).row }

  /** Not yet in deletion, with nothing of its own in other wallets. */
  ghost predicate FreshlyDoomed(st: State, actor: Actor) {
    !st.Row().matching.InDeletion() && NothingStranded(st.world, Doomed(st, actor))
  }

  /** What becomes of a child nobody interferes with; `wrote` says whether this pass has written its row. A
      skipped child was building and is untouched; a failed one met a failure, and is in deletion only if it was
      or if this pass put it there; and when nothing fails every child not building is deleted, one admitted here
      leaving the external world as one uninterrupted cascade does. */
  ghost predicate Outcome(v: Verdict, st: State, st': State, wrote: bool, actor: Actor, callsMayFail: bool) {
    && (v.SkippedBuilding? || !wrote ==> st' == st)
    && (v.SkippedBuilding? ==> st.Row().build.Building? && !st.Row().matching.InDeletion())
    && (v.NotAdmitted? ==> callsMayFail)
    && (v.NotAdmitted? ==> (st'.Row().matching.InDeletion() <==> st.Row().matching.InDeletion() || wrote))
    && (!callsMayFail ==> v == Expected(st.Row()))
    && (!callsMayFail && v.WasDeleted? && FreshlyDoomed(st, actor) ==>
          st'.world == CascadedWorld(st.world, Doomed(st, actor)))
  }

  lemma NotBegunOutcome(c: Children, mine: set<Uuid>, id: Uuid, tenant: string, actor: Actor, fault: Fault,
                        r: Admission, c': Children, mine': set<Uuid>, callsMayFail: bool)
    requires AdmittedAs(c, mine, id, tenant, actor, fault, r, c', mine') && !r.Begun? && id !in mine
    requires c[id].Row().tenant == tenant && (!callsMayFail ==> fault.NoFault?)
    ensures EndedAs(id, if r.Building? then SkippedBuilding else NotAdmitted, c, c', mine', actor, callsMayFail)
  {
  }

  lemma BegunOutcome(c: Children, mine: set<Uuid>, id: Uuid, tenant: string, actor: Actor, fault: Fault,
                     begun: Children, mine': set<Uuid>, callsMayFail: bool, v: Verdict, c': Children, mine'': set<Uuid>)
    requires AdmittedAs(c, mine, id, tenant, actor, fault, Begun, begun, mine') && id in c' && id in mine''
    requires (v.WasDeleted? || v.InProgress?) && (!callsMayFail ==> v.WasDeleted?)
    requires begun[id] != c[id] && v.WasDeleted? ==> CascadedFrom(begun[id].world, begun[id].Row(), c'[id].world)
    ensures EndedAs(id, v, c, c', mine'', actor, callsMayFail)
  {
    if !c[id].Row().matching.InDeletion() {
      assert begun[id].Row().matching.Deleting?;
    }
  }

  // --- the pass ----------------------------------------------------------------------------------

  datatype CascadeOutcome = Done | Stopped | Crashed

  class Fleet {
    var children: Children
    /** The ids whose row this pass has written, or handed to a cascade. */
    ghost var mine: set<Uuid>
    /** Whether calls of this pass may fail, and whether others may act. Without others a child's cascade
        still meets other runners and whoever else adds nothing. */
    const callsMayFail: bool
    const othersMayAct: bool

    ghost predicate Valid() reads this { AllSound(children) }

    constructor (children: Children, callsMayFail: bool, othersMayAct: bool)
      requires AllSound(children)
      ensures Valid() && this.children == children && mine == {}
      ensures this.callsMayFail == callsMayFail && this.othersMayAct == othersMayAct
    {
      this.children, this.callsMayFail, this.othersMayAct, mine := children, callsMayFail, othersMayAct, {};
    }

    /** Any steps of the protocol, on any child. */
    method Interfere()
      requires Valid()
      modifies this`children
      ensures Valid() && Later(old(children), children) && (!othersMayAct ==> children == old(children))
    {
      var n: nat := *;
      while n > 0
        invariant Valid() && Later(old(children), children) && (!othersMayAct ==> children == old(children))
      {
        var id: Uuid, s: Step := *, *;
        if othersMayAct && id in children && Enabled(children[id], s) {
          StepSound(children, id, s);
          LaterOn(old(children), children, children[id := Apply(children[id], s)]);
          children := children[id := Apply(children[id], s)];
        }
        n := n - 1;
      }
    }

    /** The transaction of one child's DELETE admission. */
    method Admit(tenant: string, id: Uuid, actor: Actor, fault: Fault) returns (r: Admission)
      requires Valid() && id in children
      modifies this
      ensures Valid() && Later(old(children), children)
      ensures AdmittedAs(old(children), old(mine), id, tenant, actor, fault, r, children, mine)
      ensures r.Begun? ==> children[id].Row().matching.InDeletion()
      ensures old(mine) <= mine <= old(mine) + {id} && (r.Building? ==> mine == old(mine))
    {
      AdmitSound(children, id, tenant, actor, fault);
      if fault.BeforeCommit? || children[id].Row().tenant != tenant {
        r := Raised;
      } else if children[id].Row().matching.InDeletion() {
        r := Begun;
      } else if children[id].Row().build.Building? {
        r := Admission.Building;
      } else {
        children := children[id := DirectApply(children[id], Protocol.BeginDelete(actor))];
        mine := mine + {id};
        r := if fault.AfterCommit? then Raised else Begun;
      }
    }

    /** DELETE admission of one child, after whatever others did. */
    method BeginDelete(tenant: string, id: Uuid, actor: Actor) returns (r: Admission, ghost fault: Fault)
      requires Valid()
      modifies this
      ensures Valid() && Later(old(children), children) && old(mine) <= mine <= old(mine) + {id}
      ensures id !in children ==> r.Raised? && mine == old(mine)
      ensures r.Building? ==> mine == old(mine)
      ensures r.Begun? ==> id in children && children[id].Row().matching.InDeletion()
      ensures !callsMayFail ==> fault.NoFault?
      ensures !othersMayAct && id in children ==>
        AdmittedAs(old(children), old(mine), id, tenant, actor, fault, r, children, mine)
    {
      Interfere();
      fault := NoFault;
      if id !in children {
        return Raised, fault;
      }
      ghost var before := children;
      var chosen: Fault := *;
      if !callsMayFail {
        chosen := NoFault;
      }
      fault := chosen;
      r := Admit(tenant, id, actor, chosen);
      LaterOn(old(children), before, children);
    }

    /** One cascade attempt on a child in deletion; whatever it raises, the child stays in deletion. `base` is
        the world its cascade converges from, if that is known. */
    method RunCascade(id: Uuid, ghost base: Option<World>) returns (r: CascadeOutcome)
      requires Valid() && id in children && children[id].Row().matching.InDeletion()
      requires base.Some? ==> Converging(base.value, children[id].Row(), children[id])
      modifies this
      ensures Valid() && Later(old(children), children) && mine == old(mine) + {id}
      ensures r.Done? ==> children[id].Row().matching.Deleted?
      ensures !callsMayFail && !othersMayAct ==> r.Done?
      ensures !othersMayAct ==> children == old(children)[id := children[id]]
      ensures !othersMayAct && r.Done? && base.Some? ==>
        CascadedFrom(base.value, old(children)[id].Row(), children[id].world)
    {
      mine := mine + {id};
      var after: Children;
      r, after := AttemptOn(children, id, callsMayFail, othersMayAct, base);
      children := after;
      Interfere();
      LaterOn(old(children), after, children);
      if r.Done? {
        DeletedStays(after, children, id);
      }
    }

    /** One child: admit, then run the cascade, whatever either raises. */
    method DeboardChild(tenant: string, id: Uuid, actor: Actor) returns (v: Verdict)
      requires Valid() && id in children
      modifies this
      ensures Valid() && Later(old(children), children) && old(mine) <= mine <= old(mine) + {id}
      ensures Describes(v, children[id].Row())
      ensures v.SkippedBuilding? ==> mine == old(mine)
      ensures !othersMayAct ==>
        && children == old(children)[id := children[id]]
        && (id !in old(mine) && old(children)[id].Row().tenant == tenant ==>
              EndedAs(id, v, old(children), children, mine, actor, callsMayFail))
    {
      var admission, fault := BeginDelete(tenant, id, actor);
      if !admission.Begun? {
        v := if admission.Building? then SkippedBuilding else NotAdmitted;
        if !othersMayAct && id !in old(mine) && old(children)[id].Row().tenant == tenant {
          NotBegunOutcome(old(children), old(mine), id, tenant, actor, fault, admission, children, mine, callsMayFail);
        }
        return;
      }
      ghost var begun, written := children, mine;
      ghost var base := if !othersMayAct && begun[id] != old(children)[id] then Some(begun[id].world) else None;
      BegunConverges(old(children), id, tenant, actor, fault, begun, base);
      var outcome := RunCascade(id, base);
      LaterOn(old(children), begun, children);
      v := if outcome.Done? then WasDeleted else InProgress;
      if !othersMayAct {
        BegunOutcome(old(children), old(mine), id, tenant, actor, fault, begun, written, callsMayFail, v, children,
                     mine);
      }
    }

    /** One deboard pass over the table's ids in their order. The four lists are the scanned ids split by
        verdict, in scan order; every verdict describes its child at the end; the pass wrote only scanned
        children and none it skipped; and without others every child ended as `Outcome` says, the children
        outside the scan untouched. */
    method DeboardWallet(order: seq<Uuid>, tenant: string, wallet: Wallet, actor: Actor)
      returns (summary: Summary, ghost ids: seq<Uuid>, ghost verdicts: seq<Verdict>)
      requires Valid() && mine == {} && Distinct(order)
      modifies this
      ensures Valid() && Later(old(children), children)
      ensures ids == Scan(old(children), order, tenant, wallet) && |verdicts| == |ids|
      ensures summary == SummaryOf(ids, verdicts)
      ensures forall i | 0 <= i < |ids| :: ids[i] in children && Describes(verdicts[i], children[ids[i]].Row())
      ensures forall i | 0 <= i < |ids| && verdicts[i].SkippedBuilding? :: ids[i] !in mine
      ensures forall id | id in mine :: id in ids
      ensures !othersMayAct ==> OthersUntouched(ids, old(children), children)
      ensures !othersMayAct ==> AllEndedAs(ids, verdicts, old(children), children, mine, actor, callsMayFail)
    {
      var scan := Scan(children, order, tenant, wallet);
      ids, verdicts := scan, [];
      ScannedChildren(children, order, tenant, wallet);
      var deleted, inProgress, skippedBuilding, failed := [], [], [], [];
      for i := 0 to |scan|
        invariant Valid() && |verdicts| == i && Later(old(children), children)
        invariant Summary(deleted, inProgress, skippedBuilding, failed) == SummaryOf(scan[..i], verdicts)
        invariant Judged(scan, verdicts, children) && WroteOwn(scan, verdicts, mine)
        invariant !othersMayAct ==> Calm(scan, verdicts, old(children), children, mine, actor, callsMayFail)
      {
        ghost var before, written := children, mine;
        var v := DeboardChild(tenant, scan[i], actor);
        LaterOn(old(children), before, children);
        JudgedOn(scan, verdicts, v, before, children);
        WroteOwnOn(scan, verdicts, v, written, mine);
        if !othersMayAct {
          CalmOn(scan, verdicts, v, old(children), before, written, children, mine, tenant, actor, callsMayFail);
        }
        SummaryAppend(scan, verdicts, v);
        verdicts := verdicts + [v];
        match v
        case WasDeleted => deleted := deleted + [scan[i]];
        case InProgress => inProgress := inProgress + [scan[i]];
        case SkippedBuilding => skippedBuilding := skippedBuilding + [scan[i]];
        case NotAdmitted => failed := failed + [scan[i]];
      }
      assert scan[..|scan|] == scan;
      summary := Summary(deleted, inProgress, skippedBuilding, failed);
    }
  }

  /** What one uninterrupted cascade on `row` makes of `w`, if nothing of the automation's is stranded. */
  ghost predicate CascadedFrom(w: World, row: Row, after: World) {
    NothingStranded(w, row) ==> after == CascadedWorld(w, row)
  }

  /** An unused runner id. */
  method FreshRunner(runners: map<nat, Runner>) returns (rid: nat)
    ensures rid !in runners
  {
    rid := 0;
    ghost var above := runners.Keys;
    while rid in runners
      invariant forall k | k in runners && k >= rid :: k in above
      decreases above
    {
      above := above - {rid};
      rid := rid + 1;
    }
  }

  /** The attempt on one state, as a new runner. */
  method Attempt(st: State, callsMayFail: bool, othersMayAct: bool, ghost base: Option<World>)
    returns (r: CascadeOutcome, after: State)
    requires Inv(st) && st.Row().matching.InDeletion()
    requires base.Some? ==> Converging(base.value, st.Row(), st)
    ensures Inv(after) && LaterRow(st.Row(), after.Row())
    ensures r.Done? ==> after.Row().matching.Deleted?
    ensures !callsMayFail && !othersMayAct ==> r.Done?
    ensures !othersMayAct && r.Done? && base.Some? ==> CascadedFrom(base.value, st.Row(), after.world)
  {
    var rid := FreshRunner(st.runners);
    var service := new Service(st, rid, callsMayFail, othersMayAct, base, st.Row());
    var result, _ := service.RunCascade();
    r := if Completed(result) then CascadeOutcome.Done else if result.ReadFailed? then Crashed else Stopped;
    after := service.st;
    if base.Some? && NothingStranded(base.value, st.Row()) {
      SameCascade(base.value, service.base.value, st.Row());
    }
  }

  method AttemptOn(c: Children, id: Uuid, callsMayFail: bool, othersMayAct: bool, ghost base: Option<World>)
    returns (r: CascadeOutcome, c': Children)
    requires AllSound(c) && id in c && c[id].Row().matching.InDeletion()
    requires base.Some? ==> Converging(base.value, c[id].Row(), c[id])
    ensures AllSound(c') && Later(c, c') && c' == c[id := c'[id]]
    ensures r.Done? ==> c'[id].Row().matching.Deleted?
    ensures !callsMayFail && !othersMayAct ==> r.Done?
    ensures !othersMayAct && r.Done? && base.Some? ==> CascadedFrom(base.value, c[id].Row(), c'[id].world)
  {
    assert SoundAt(c, id);
    var after: State;
    r, after := Attempt(c[id], callsMayFail, othersMayAct, base);
    SoundUpdate(c, id, after);
    c' := c[id := after];
  }

  lemma DeletedStays(c: Children, c': Children, id: Uuid)
    requires AllSound(c) && AllSound(c') && Later(c, c') && id in c && c[id].Row().matching.Deleted?
    ensures c'[id].Row().matching.Deleted?
  {
    assert SoundAt(c, id) && SoundAt(c', id);
  }

  /** A child this pass has just admitted converges from its own world. */
  lemma BegunConverges(c: Children, id: Uuid, tenant: string, actor: Actor, fault: Fault, begun: Children,
                       base: Option<World>)
    requires AllSound(c) && id in c && id in begun
    requires base.Some? ==>
      begun[id] == AdmitChild(c[id], tenant, actor, fault).1 && begun[id] != c[id] && base.value == begun[id].world
    ensures base.Some? ==> Converging(base.value, begun[id].Row(), begun[id])
  {
    assert SoundAt(c, id);
    AdmitKeepsInv(c[id], tenant, actor, fault);
  }

  // --- what holds after the children judged so far ------------------------------------------------

  ghost predicate Judged(ids: seq<Uuid>, verdicts: seq<Verdict>, c: Children) {
    |verdicts| <= |ids| && forall i | 0 <= i < |verdicts| :: ids[i] in c && Describes(verdicts[i], c[ids[i]].Row())
  }

  ghost predicate WroteOwn(ids: seq<Uuid>, verdicts: seq<Verdict>, mine: set<Uuid>) {
    && |verdicts| <= |ids|
    && (forall i | 0 <= i < |verdicts| && verdicts[i].SkippedBuilding? :: ids[i] !in mine)
    && (forall id | id in mine :: id in ids[..|verdicts|])
  }

  /** Child `id` ended as `Outcome` says. */
  ghost predicate EndedAs(id: Uuid, v: Verdict, c: Children, c': Children, mine: set<Uuid>, actor: Actor,
                          callsMayFail: bool)
  {
    id in c && id in c' && Outcome(v, c[id], c'[id], id in mine, actor, callsMayFail)
  }

  ghost predicate AllEndedAs(ids: seq<Uuid>, verdicts: seq<Verdict>, c: Children, c': Children, mine: set<Uuid>,
                             actor: Actor, callsMayFail: bool)
  {
    && |verdicts| <= |ids|
    && forall i | 0 <= i < |verdicts| :: EndedAs(ids[i], verdicts[i], c, c', mine, actor, callsMayFail)
  }

  /** Nobody outside `ids` changed. */
  ghost predicate OthersUntouched(ids: seq<Uuid>, c: Children, c': Children) {
    c'.Keys == c.Keys && forall id | id in c && id !in ids :: c'[id] == c[id]
  }

  lemma JudgedOn(ids: seq<Uuid>, verdicts: seq<Verdict>, v: Verdict, c: Children, c': Children)
    requires Judged(ids, verdicts, c) && |verdicts| < |ids| && Later(c, c') && AllSound(c) && AllSound(c')
    requires ids[|verdicts|] in c' && Describes(v, c'[ids[|verdicts|]].Row())
    ensures Judged(ids, verdicts + [v], c')
  {
    forall i | 0 <= i < |verdicts| ensures Describes(verdicts[i], c'[ids[i]].Row()) {
      if verdicts[i].WasDeleted? {
        DeletedStays(c, c', ids[i]);
      }
    }
  }

  lemma WroteOwnOn(ids: seq<Uuid>, verdicts: seq<Verdict>, v: Verdict, mine: set<Uuid>, mine': set<Uuid>)
    requires WroteOwn(ids, verdicts, mine) && |verdicts| < |ids| && Distinct(ids)
    requires mine' <= mine + {ids[|verdicts|]} && (v.SkippedBuilding? ==> mine' == mine)
    ensures ids[|verdicts|] !in mine && WroteOwn(ids, verdicts + [v], mine')
  {
    assert ids[|verdicts|] !in ids[..|verdicts|];
    assert ids[..|verdicts| + 1] == ids[..|verdicts|] + [ids[|verdicts|]];
  }

  lemma UntouchedOn(ids: seq<Uuid>, n: nat, a: Children, b: Children, c: Children)
    requires n < |ids| && OthersUntouched(ids[..n], a, b) && ids[n] in a && ids[n] in c
    requires c == b[ids[n] := c[ids[n]]]
    ensures OthersUntouched(ids[..n + 1], a, c)
  {
    assert ids[..n + 1] == ids[..n] + [ids[n]];
  }

  lemma EndedOn(id: Uuid, v: Verdict, a: Children, b: Children, m: set<Uuid>, c: Children, n: set<Uuid>, actor: Actor,
                callsMayFail: bool)
    requires EndedAs(id, v, a, b, m, actor, callsMayFail) && id in c && c[id] == b[id] && (id in n <==> id in m)
    ensures EndedAs(id, v, a, c, n, actor, callsMayFail)
  {
  }

  lemma AllEndedOn(ids: seq<Uuid>, verdicts: seq<Verdict>, v: Verdict, a: Children, b: Children, m: set<Uuid>,
                   c: Children, n: set<Uuid>, actor: Actor, callsMayFail: bool)
    requires AllEndedAs(ids, verdicts, a, b, m, actor, callsMayFail) && |verdicts| < |ids| && Distinct(ids)
    requires ids[|verdicts|] in c && c == b[ids[|verdicts|] := c[ids[|verdicts|]]] && m <= n <= m + {ids[|verdicts|]}
    requires EndedAs(ids[|verdicts|], v, a, c, n, actor, callsMayFail)
    ensures AllEndedAs(ids, verdicts + [v], a, c, n, actor, callsMayFail)
  {
    forall k | 0 <= k < |verdicts| ensures EndedAs(ids[k], verdicts[k], a, c, n, actor, callsMayFail) {
      assert EndedAs(ids[k], verdicts[k], a, b, m, actor, callsMayFail);
      EndedOn(ids[k], verdicts[k], a, b, m, c, n, actor, callsMayFail);
    }
  }

  /** All that holds of the children so far when nobody interferes. */
  ghost predicate Calm(ids: seq<Uuid>, verdicts: seq<Verdict>, c: Children, c': Children, mine: set<Uuid>, actor: Actor,
                       callsMayFail: bool)
  {
    && |verdicts| <= |ids| && OthersUntouched(ids[..|verdicts|], c, c')
    && AllEndedAs(ids, verdicts, c, c', mine, actor, callsMayFail)
  }

  lemma CalmOn(ids: seq<Uuid>, verdicts: seq<Verdict>, v: Verdict, a: Children, b: Children, m: set<Uuid>, c: Children,
               n: set<Uuid>, tenant: string, actor: Actor, callsMayFail: bool)
    requires Calm(ids, verdicts, a, b, m, actor, callsMayFail) && |verdicts| < |ids| && Distinct(ids)
    requires ids[|verdicts|] in a && ids[|verdicts|] in c && c == b[ids[|verdicts|] := c[ids[|verdicts|]]]
    requires ids[|verdicts|] !in m && m <= n <= m + {ids[|verdicts|]} && a[ids[|verdicts|]].Row().tenant == tenant
    requires b[ids[|verdicts|]].Row().tenant == tenant ==>
      EndedAs(ids[|verdicts|], v, b, c, n, actor, callsMayFail)
    ensures Calm(ids, verdicts + [v], a, c, n, actor, callsMayFail)
  {
    assert ids[|verdicts|] !in ids[..|verdicts|];
    assert b[ids[|verdicts|]] == a[ids[|verdicts|]];
    UntouchedOn(ids, |verdicts|, a, b, c);
    AllEndedOn(ids, verdicts, v, a, b, m, c, n, actor, callsMayFail);
  }

  lemma SummaryAppend(ids: seq<Uuid>, verdicts: seq<Verdict>, v: Verdict)
    requires |verdicts| < |ids|
    ensures var i := |verdicts|; var s := SummaryOf(ids[..i], verdicts);
      SummaryOf(ids[..i + 1], verdicts + [v]) == match v
        case WasDeleted => s.(deleted := s.deleted + [ids[i]])
        case InProgress => s.(inProgress := s.inProgress + [ids[i]])
        case SkippedBuilding => s.(skippedBuilding := s.skippedBuilding + [ids[i]])
        case NotAdmitted => s.(failed := s.failed + [ids[i]])
  {
    var i := |verdicts|;
    assert ids[..i + 1] == ids[..i] + [ids[i]];
    forall w: Verdict ensures With(ids[..i + 1], verdicts + [v], w)
        == if v == w then With(ids[..i], verdicts, w) + [ids[i]] else With(ids[..i], verdicts, w)
    {
      WithAppend(ids[..i], verdicts, ids[i], v, w);
    }
  }
}
