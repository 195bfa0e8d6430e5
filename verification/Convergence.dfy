/** Cascade attempts, interrupted anywhere and overlapping at will, against one uninterrupted run. */
module Convergence {
  import opened Domain
  import opened ExternalWorld
  import opened Transactions
  import opened RowCore
  import opened Protocol
  import opened Invariant
  import opened CascadeOrder

  /** The own images gone, everyone else's kept. */
  function Purged(images: map<Uuid, set<string>>, id: Uuid): map<Uuid, set<string>> {
    if id in images then images[id := {}] else images
  }

  /** What one uninterrupted cascade makes of world `w`: own Capp, run-auth Secret and images gone, the
      script archived once; every other Capp, Secret (the team's too), image and file as it was. */
  function CascadedWorld(w: World, row: Row): World {
    Archive(World(w.capps - {CappKey(row)}, w.secrets - {SecretKey(row)}, Purged(w.images, row.id), w.files, w.commits),
            row.id, row.updatedBy)
  }

  /** The same, part by part: nothing goes but the row's own Capp, run-auth Secret and images; every file stays,
      the script included; the marker is there, written in the deleter's name unless it already was; and at most
      one commit is added. */
  lemma CascadeLeaves(w: World, row: Row)
    ensures var w' := CascadedWorld(w, row); var marker := row.id.text + "/.archived";
      && (forall k :: k in w'.capps <==> k in w.capps && k != Key(row.namespace, CappName(row.id)))
      && (forall k | k in w'.capps :: w'.capps[k] == w.capps[k])
      && (forall k :: k in w'.secrets <==> k in w.secrets && k != Key(row.namespace, RunAuthSecretName(row.id)))
      && w'.images.Keys == w.images.Keys
      && (forall id | id in w'.images :: w'.images[id] == if id == row.id then {} else w.images[id])
      && (forall path | path in w.files :: path in w'.files && w'.files[path] == w.files[path])
      && w'.files.Keys == w.files.Keys + {marker}
      && (marker !in w.files ==> w'.files[marker] == "archived by " + row.updatedBy.email + "\n")
      && w'.commits == if marker in w.files then w.commits else w.commits + ["archive " + row.id.text]
  {
  }

  /** Each part of the world is as it was or as the cascade leaves it; the inventory only shrinks. */
  ghost predicate Between(w: World, row: Row, now: World) {
    && (now.capps == w.capps || now.capps == w.capps - {CappKey(row)})
    && (now.secrets == w.secrets || now.secrets == w.secrets - {SecretKey(row)})
    && now.images.Keys == w.images.Keys
    && (forall id | id in w.images && id != row.id :: now.images[id] == w.images[id])
    && Inventory(now, row.id) <= Inventory(w, row.id)
    && ((now.files == w.files && now.commits == w.commits) || Archived(w, row, now))
  }

  predicate Archived(w: World, row: Row, now: World) {
    var after := Archive(w, row.id, row.updatedBy);
    now.files == after.files && now.commits == after.commits
  }

  /** What has been done once `completed` steps are checkpointed. */
  ghost predicate DoneUpTo(w: World, row: Row, now: World, completed: nat) {
    && (completed >= 2 ==> CappKey(row) !in now.capps && SecretKey(row) !in now.secrets)
    && (completed >= 3 ==> Inventory(now, row.id) == {})
    && (completed >= 4 ==> Archived(w, row, now))
  }

  ghost predicate RunnerDone(w: World, row: Row, now: World, r: Runner) {
    match r.pc
    case NeedsSecretDelete => CappKey(row) !in now.capps
    case Purging(todo) => forall e | e in Inventory(now, row.id) :: e in todo
    case NeedsSave(completed) => DoneUpTo(w, row, now, completed)
    case _ => true
  }

  ghost predicate ConvergeInv(w: World, st: State) {
    && st.Row().matching.InDeletion()
    && Between(w, st.Row(), st.world)
    && DoneUpTo(w, st.Row(), st.world, StepOf(st.Row()))
    && forall i | i in st.runners :: RunnerDone(w, st.Row(), st.world, st.runners[i])
  }

  /** The row is the admitted one but for the cascade's own progress. */
  ghost predicate Converging(w: World, row: Row, st: State) { ConvergeInv(w, st) && Frozen(row, st.Row()) }

  /** A world further along keeps everything that was done. */
  predicate Further(w: World, row: Row, now: World, now': World) {
    && (CappKey(row) !in now.capps ==> CappKey(row) !in now'.capps)
    && (SecretKey(row) !in now.secrets ==> SecretKey(row) !in now'.secrets)
    && Inventory(now', row.id) <= Inventory(now, row.id)
    && (Archived(w, row, now) ==> Archived(w, row, now'))
  }

  lemma FurtherKeeps(w: World, row: Row, now: World, now': World, completed: nat, r: Runner)
    requires Further(w, row, now, now')
    ensures DoneUpTo(w, row, now, completed) ==> DoneUpTo(w, row, now', completed)
    ensures RunnerDone(w, row, now, r) ==> RunnerDone(w, row, now', r)
  {
  }

  lemma FrozenDone(w: World, row: Row, row': Row, now: World)
    requires Frozen(row, row')
    ensures Between(w, row, now) ==> Between(w, row', now)
    ensures forall k: nat :: DoneUpTo(w, row, now, k) ==> DoneUpTo(w, row', now, k)
    ensures forall r :: RunnerDone(w, row, now, r) ==> RunnerDone(w, row', now, r)
  {
  }

  // --- one runner step --------------------------------------------------------------------

  /** One call's effect: the world stays between, and further along. */
  ghost predicate Goes(w: World, row: Row, now: World, now': World) {
    Between(w, row, now') && Further(w, row, now, now')
  }

  lemma CappDeletionGoes(w: World, row: Row, now: World)
    requires Between(w, row, now)
    ensures Goes(w, row, now, DeleteCapp(now, CappKey(row)))
  {
  }

  lemma SecretDeletionGoes(w: World, row: Row, now: World)
    requires Between(w, row, now)
    ensures Goes(w, row, now, DeleteSecret(now, SecretKey(row)))
  {
  }

  lemma ImageDeletionGoes(w: World, row: Row, now: World, entry: string)
    requires Between(w, row, now)
    ensures Goes(w, row, now, DeleteImage(now, row.id, entry))
    ensures Inventory(DeleteImage(now, row.id, entry), row.id) == Inventory(now, row.id) - {entry}
  {
  }

  lemma ArchiveGoes(w: World, row: Row, now: World)
    requires Between(w, row, now)
    ensures Goes(w, row, now, Archive(now, row.id, row.updatedBy))
    ensures Archived(w, row, Archive(now, row.id, row.updatedBy))
  {
  }

  /** A runner's step takes the world further, on the row's own resources only. */
  lemma RunnerGoesFurther(w: World, st: State, rid: nat, s: RunnerStep)
    requires CoreInv(st.core) && Between(w, st.Row(), st.world) && RunnerEnabled(st, rid, s)
    requires rid in st.runners ==> RunnerOk(st.core, st.runners[rid])
    ensures Goes(w, st.Row(), st.world, RunnerApply(st, rid, s).world)
  {
    assert Goes(w, st.Row(), st.world, st.world);
    match s
    case RunDeleteCapp(_) =>
      assert CappNameFor(st.runners[rid].snap) == CappName(st.Row().id);
      CappDeletionGoes(w, st.Row(), st.world);
    case RunDeleteSecret(_) => SecretDeletionGoes(w, st.Row(), st.world);
    case RunDeleteImage(_) => ImageDeletionGoes(w, st.Row(), st.world, st.runners[rid].pc.todo[0]);
    case RunArchive(_) => ArchiveGoes(w, st.Row(), st.world);
    case _ =>
  }

  /** What a runner about to take step `s` relies on. */
  ghost predicate Acting(w: World, st: State, rid: nat, s: RunnerStep) {
    && CoreInv(st.core) && RunnerEnabled(st, rid, s) && rid in st.runners && RunnerOk(st.core, st.runners[rid])
    && RunnerDone(w, st.Row(), st.world, st.runners[rid])
    && Between(w, st.Row(), st.world) && DoneUpTo(w, st.Row(), st.world, StepOf(st.Row()))
  }

  lemma CappDeleted(w: World, st: State, rid: nat, fate: Fate)
    requires Acting(w, st, rid, RunDeleteCapp(fate))
    ensures var st' := DoRunDeleteCapp(st, rid, fate);
      rid in st'.runners ==> RunnerDone(w, st.Row(), st'.world, st'.runners[rid])
  {
    assert CappNameFor(st.runners[rid].snap) == CappName(st.Row().id);
  }

  lemma SecretDeleted(w: World, st: State, rid: nat, fate: Fate)
    requires Acting(w, st, rid, RunDeleteSecret(fate))
    ensures var st' := DoRunDeleteSecret(st, rid, fate);
      rid in st'.runners ==> RunnerDone(w, st.Row(), st'.world, st'.runners[rid])
  {
  }

  lemma ImageDeleted(w: World, st: State, rid: nat, fate: Fate)
    requires Acting(w, st, rid, RunDeleteImage(fate))
    ensures var st' := DoRunDeleteImage(st, rid, fate);
      rid in st'.runners ==> RunnerDone(w, st.Row(), st'.world, st'.runners[rid])
  {
    ImageDeletionGoes(w, st.Row(), st.world, st.runners[rid].pc.todo[0]);
  }

  lemma ScriptArchived(w: World, st: State, rid: nat, fate: Fate)
    requires Acting(w, st, rid, RunArchive(fate))
    ensures var st' := DoRunArchive(st, rid, fate);
      rid in st'.runners ==> RunnerDone(w, st.Row(), st'.world, st'.runners[rid])
  {
    ArchiveGoes(w, st.Row(), st.world);
  }

  /** The steps that change nothing outside. */
  lemma ReaderDone(w: World, st: State, rid: nat, s: RunnerStep)
    requires Acting(w, st, rid, s)
    requires !s.RunDeleteCapp? && !s.RunDeleteSecret? && !s.RunDeleteImage? && !s.RunArchive?
    ensures var st' := RunnerApply(st, rid, s);
      rid in st'.runners ==> RunnerDone(w, st.Row(), st'.world, st'.runners[rid])
  {
  }

  /** The acting runner has done what its next program counter says. */
  lemma ActingRunnerDone(w: World, st: State, rid: nat, s: RunnerStep)
    requires Acting(w, st, rid, s)
    ensures var st' := RunnerApply(st, rid, s);
      rid in st'.runners ==> RunnerDone(w, st.Row(), st'.world, st'.runners[rid])
  {
    match s
    case RunDeleteCapp(fate) => CappDeleted(w, st, rid, fate);
    case RunDeleteSecret(fate) => SecretDeleted(w, st, rid, fate);
    case RunDeleteImage(fate) => ImageDeleted(w, st, rid, fate);
    case RunArchive(fate) => ScriptArchived(w, st, rid, fate);
    case _ => ReaderDone(w, st, rid, s);
  }

  /** A checkpoint is written by a runner that has done its work. */
  lemma CheckpointDone(w: World, st: State, rid: nat, s: RunnerStep)
    requires CoreInv(st.core) && RunnerEnabled(st, rid, s) && DoneUpTo(w, st.Row(), st.world, StepOf(st.Row()))
    requires rid in st.runners ==>
      RunnerOk(st.core, st.runners[rid]) && RunnerDone(w, st.Row(), st.world, st.runners[rid])
    ensures DoneUpTo(w, st.Row(), st.world, StepOf(RunnerApply(st, rid, s).Row()))
  {
  }

  lemma RunnerConverges(w: World, st: State, rid: nat, s: RunnerStep)
    requires CoreInv(st.core) && ConvergeInv(w, st) && RunnerEnabled(st, rid, s)
    requires rid in st.runners ==> RunnerOk(st.core, st.runners[rid])
    requires KeepsDeletion(st.core, RunnerApply(st, rid, s).core)
    ensures ConvergeInv(w, RunnerApply(st, rid, s))
  {
    var st' := RunnerApply(st, rid, s);
    RunnerGoesFurther(w, st, rid, s);
    if rid in st.runners {
      ActingRunnerDone(w, st, rid, s);
    }
    CheckpointDone(w, st, rid, s);
    OtherRunnersSame(st, rid, s);
    FrozenDone(w, st.Row(), st'.Row(), st'.world);
    forall i | i in st'.runners ensures RunnerDone(w, st.Row(), st'.world, st'.runners[i]) {
      if i != rid {
        FurtherKeeps(w, st.Row(), st.world, st'.world, 0, st.runners[i]);
      }
    }
    FurtherKeeps(w, st.Row(), st.world, st'.world, StepOf(st'.Row()), Runner(st.Row(), 0, AtTop));
  }

  // --- what others may do meanwhile ------------------------------------------------------------

  /** Nothing is added: deployments go or change their image, Secrets go, the rest stays. */
  predicate AddsNothing(w: World, w': World) {
    && w'.capps.Keys <= w.capps.Keys && w'.secrets <= w.secrets
    && w'.images == w.images && w'.files == w.files && w'.commits == w.commits
  }

  /** The same, and only on resources that carry the automation's own names, in whatever wallet. */
  ghost predicate OnlyOwnGoes(row: Row, w: World, w': World) {
    && AddsNothing(w, w')
    && (forall k | k in w.capps && k.name != CappName(row.id) :: k in w'.capps && w'.capps[k] == w.capps[k])
    && (forall k | k in w.secrets && k.name != RunAuthSecretName(row.id) :: k in w'.secrets)
  }

  lemma OnlyOwnGoesOn(row: Row, a: World, b: World, c: World)
    requires OnlyOwnGoes(row, a, b) && OnlyOwnGoes(row, b, c)
    ensures OnlyOwnGoes(row, a, c)
  {
  }

  /** `w` with the change someone else made taking `now` to `now'`. */
  function Rebased(w: World, now: World, now': World): World {
    w.(capps := map k | k in w.capps && (k in now.capps ==> k in now'.capps) ::
                  if k in now'.capps then now'.capps[k] else w.capps[k],
       secrets := w.secrets - (now.secrets - now'.secrets))
  }

  lemma RebasedBetween(w: World, row: Row, now: World, now': World)
    requires Between(w, row, now) && AddsNothing(now, now')
    ensures Between(Rebased(w, now, now'), row, now')
  {
    var w' := Rebased(w, now, now');
    if now.capps == w.capps {
      assert now'.capps == w'.capps;
    } else {
      assert now'.capps == w'.capps - {CappKey(row)};
    }
    if now.secrets == w.secrets {
      assert now'.secrets == w'.secrets;
    } else {
      assert now'.secrets == w'.secrets - {SecretKey(row)};
    }
  }

  lemma RebasedOwn(w: World, row: Row, now: World, now': World)
    requires Between(w, row, now) && OnlyOwnGoes(row, now, now')
    ensures OnlyOwnGoes(row, w, Rebased(w, now, now'))
  {
  }

  lemma RebasedConverges(w: World, st: State, st': State)
    requires ConvergeInv(w, st) && AddsNothing(st.world, st'.world) && st'.runners == st.runners
    requires Frozen(st.Row(), st'.Row()) && st'.Row().matching.InDeletion() && StepOf(st'.Row()) == StepOf(st.Row())
    ensures ConvergeInv(Rebased(w, st.world, st'.world), st')
  {
    var w' := Rebased(w, st.world, st'.world);
    RebasedBetween(w, st.Row(), st.world, st'.world);
    assert Inventory(st'.world, st.Row().id) == Inventory(st.world, st.Row().id);
    forall i | i in st'.runners ensures RunnerDone(w', st.Row(), st'.world, st'.runners[i]) {
      assert RunnerDone(w, st.Row(), st.world, st.runners[i]);
    }
    FrozenDone(w', st.Row(), st'.Row(), st'.world);
  }

  lemma CreateTouchesOwn(row: Row, w: World, wallet: Wallet, image: Image)
    requires AddsNothing(w, CreateDeployment(w, row.id, wallet, image))
    ensures OnlyOwnGoes(row, w, CreateDeployment(w, row.id, wallet, image))
  {
  }

  lemma RolloutTouchesOwn(row: Row, w: World, image: Image)
    ensures OnlyOwnGoes(row, w, Rollout(w, CappName(row.id), image))
  {
  }

  lemma DeletesTouchOwn(row: Row, w: World, wallet: Wallet)
    ensures OnlyOwnGoes(row, w, DeleteCapp(w, Key(wallet, CappName(row.id))))
    ensures OnlyOwnGoes(row, w, DeleteSecret(w, Key(wallet, RunAuthSecretName(row.id))))
    ensures OnlyOwnGoes(row, w, w)
  {
  }

  lemma CallTouchesOwn(st: State, did: nat, accepted: bool)
    requires DeliveryEnabled(st, did, CallCapp(accepted)) && DeliveryOk(st.core, st.deliveries[did])
    requires AddsNothing(st.world, DoCallCapp(st, did, accepted).world)
    ensures OnlyOwnGoes(st.Row(), st.world, DoCallCapp(st, did, accepted).world)
  {
    var d := st.deliveries[did];
    DeletesTouchOwn(st.Row(), st.world, d.target.namespace);
    if accepted && d.target.cappDeploymentId.None? {
      CreateTouchesOwn(st.Row(), st.world, d.target.namespace, d.event.outcome.image);
    } else if accepted {
      RolloutTouchesOwn(st.Row(), st.world, d.event.outcome.image);
    }
  }

  lemma TearDownTouchesOwn(st: State, did: nat, fate: Fate)
    requires did in st.deliveries && DeliveryOk(st.core, st.deliveries[did])
    ensures OnlyOwnGoes(st.Row(), st.world, DoTearDownCapp(st, did, fate).world)
    ensures OnlyOwnGoes(st.Row(), st.world, DoTearDownSecret(st, did, fate).world)
  {
    var d := st.deliveries[did];
    assert CappNameFor(d.target) == CappName(st.Row().id);
    DeletesTouchOwn(st.Row(), st.world, d.target.namespace);
  }

  lemma OtherDeliveriesStayHome(st: State, did: nat, s: DeliveryStep)
    requires DeliveryEnabled(st, did, s) && !s.CallCapp? && !s.TearDownCapp? && !s.TearDownSecret?
    ensures DeliveryApply(st, did, s).world == st.world
  {
    match s
    case Admit(_) =>
    case RecordFailure =>
    case CommitBuild(_) =>
    case CrashDelivery =>
  }

  /** Deliveries reach only what carries the automation's names. */
  lemma DeliveryTouchesOwn(st: State, did: nat, s: DeliveryStep)
    requires DeliveryEnabled(st, did, s) && (did in st.deliveries ==> DeliveryOk(st.core, st.deliveries[did]))
    requires AddsNothing(st.world, DeliveryApply(st, did, s).world)
    ensures OnlyOwnGoes(st.Row(), st.world, DeliveryApply(st, did, s).world)
  {
    match s
    case CallCapp(accepted) => CallTouchesOwn(st, did, accepted);
    case TearDownCapp(fate) => TearDownTouchesOwn(st, did, fate);
    case TearDownSecret(fate) => TearDownTouchesOwn(st, did, fate);
    case _ =>
      OtherDeliveriesStayHome(st, did, s);
      DeletesTouchOwn(st.Row(), st.world, st.Row().namespace);
  }

  lemma EditStaysHome(st: State, eid: nat, s: EditStep)
    requires EditEnabled(st, eid, s)
    ensures EditApply(st, eid, s).world.capps == st.world.capps
    ensures EditApply(st, eid, s).world.secrets == st.world.secrets
  {
  }

  lemma DirectStaysHome(st: State, s: DirectStep)
    requires DirectEnabled(st, s)
    ensures DirectApply(st, s).world.capps == st.world.capps
    ensures DirectApply(st, s).world.secrets == st.world.secrets
  {
  }

  lemma OutsideTouchesOwn(st: State, s: Step)
    requires DeliveriesInv(st) && Enabled(st, s) && !s.RunnerBy? && AddsNothing(st.world, Apply(st, s).world)
    ensures OnlyOwnGoes(st.Row(), st.world, Apply(st, s).world)
  {
    match s
    case EditBy(eid, e) => EditStaysHome(st, eid, e);
    case DeliveryBy(did, d) => DeliveryTouchesOwn(st, did, d);
    case Direct(d) => DirectStaysHome(st, d);
  }

  /** The outside steps that may add something: the calls and pushes that say so. Every other one, a
      delivery's tear-down and a rollout included, adds nothing. */
  predicate MayAdd(st: State, s: Step) {
    match s
    case EditBy(_, e) => e.CommitScript? || e == FailCommit(true)
    case DeliveryBy(did, d) =>
      d == CallCapp(true) && did in st.deliveries && st.deliveries[did].target.cappDeploymentId.None?
    case Direct(d) => d.PushImage?
    case RunnerBy(_, _) => false
  }

  lemma DeliveryAddsNothing(st: State, did: nat, s: DeliveryStep)
    requires DeliveryEnabled(st, did, s) && !MayAdd(st, DeliveryBy(did, s))
    ensures AddsNothing(st.world, DeliveryApply(st, did, s).world)
  {
    match s
    case CallCapp(_) =>
    case TearDownCapp(_) =>
    case TearDownSecret(_) =>
    case _ => OtherDeliveriesStayHome(st, did, s);
  }

  lemma EditAddsNothing(st: State, eid: nat, s: EditStep)
    requires EditEnabled(st, eid, s) && !s.CommitScript? && s != FailCommit(true)
    ensures EditApply(st, eid, s).world == st.world
  {
  }

  lemma DirectAddsNothing(st: State, s: DirectStep)
    requires DirectEnabled(st, s) && !s.PushImage?
    ensures DirectApply(st, s).world == st.world
  {
  }

  lemma OthersAddNothing(st: State, s: Step)
    requires Enabled(st, s) && !s.RunnerBy? && !MayAdd(st, s)
    ensures AddsNothing(st.world, Apply(st, s).world)
  {
    match s
    case EditBy(eid, e) => EditAddsNothing(st, eid, e);
    case DeliveryBy(did, d) => DeliveryAddsNothing(st, did, d);
    case Direct(d) => DirectAddsNothing(st, d);
  }

  /** One step of anyone who adds nothing: the cascade goes on from the admitted world less what others
      took away. */
  lemma StepConverges(w: World, row: Row, st: State, s: Step, st': State) returns (w': World)
    requires Inv(st) && Converging(w, row, st) && CascadeStep(st, s, st')
    ensures Inv(st') && Converging(w', row, st') && OnlyOwnGoes(row, w, w')
  {
    StepKeepsInv(st, s);
    StepGood(st, s);
    if s.RunnerBy? {
      w' := w;
      RunnerGood(st, s.rid, s.runner);
      RunnerConverges(w, st, s.rid, s.runner);
    } else {
      w' := OutsideConverges(w, row, st, s);
    }
  }

  lemma OutsideConverges(w: World, row: Row, st: State, s: Step) returns (w': World)
    requires Inv(st) && Converging(w, row, st) && Enabled(st, s)
    requires !s.RunnerBy? && AddsNothing(st.world, Apply(st, s).world)
    ensures Converging(w', row, Apply(st, s)) && OnlyOwnGoes(row, w, w')
  {
    var st' := Apply(st, s);
    w' := Rebased(w, st.world, st'.world);
    StepGood(st, s);
    OthersUncalled(st, s);
    OutsideTouchesOwn(st, s);
    RebasedOwn(w, st.Row(), st.world, st'.world);
    RebasedConverges(w, st, st');
  }

  // --- listings -----------------------------------------------------------------------------------

  /** What runner `rid` still has to purge, if it is at that, covers the inventory. */
  ghost predicate PurgeOk(st: State, rid: nat) {
    rid in st.runners && st.runners[rid].pc.Purging? ==>
      forall e | e in Inventory(st.world, st.Row().id) :: e in st.runners[rid].pc.todo
  }

  lemma RunnerKeepsPurge(st: State, rid: nat, s: RunnerStep, own: nat)
    requires PurgeOk(st, own) && RunnerEnabled(st, rid, s) && (rid in st.runners ==> RunnerOk(st.core, st.runners[rid]))
    ensures PurgeOk(RunnerApply(st, rid, s), own)
  {
    OtherRunnersSame(st, rid, s);
    RunnerShrinks(st, rid, s);
  }

  lemma RunnerShrinks(st: State, rid: nat, s: RunnerStep)
    requires RunnerEnabled(st, rid, s) && (rid in st.runners ==> RunnerOk(st.core, st.runners[rid]))
    ensures var st' := RunnerApply(st, rid, s);
      && st'.Row().id == st.Row().id && Inventory(st'.world, st.Row().id) <= Inventory(st.world, st.Row().id)
      && (rid in st'.runners && st'.runners[rid].pc.Purging? ==>
            rid in st.runners
            && (s.RunList? ==> Inventory(st.world, st.Row().id) == set e | e in st'.runners[rid].pc.todo)
            && (!s.RunList? ==>
                  && st.runners[rid].pc.Purging?
                  && forall e | e in st.runners[rid].pc.todo && e !in st'.runners[rid].pc.todo ::
                       e !in Inventory(st'.world, st.Row().id)))
  {
    match s
    case RunDeleteImage(_) =>
    case _ =>
  }

  lemma OutsideKeepsPurge(st: State, s: Step, own: nat)
    requires Inv(st) && PurgeOk(st, own) && Enabled(st, s) && !s.RunnerBy?
    requires AddsNothing(st.world, Apply(st, s).world)
    ensures PurgeOk(Apply(st, s), own)
  {
    StepGood(st, s);
    OthersUncalled(st, s);
  }

  /** Without faults an attempt is never turned away: at the re-listing the inventory is empty. */
  lemma RelistFindsNothing(st: State, rid: nat)
    requires PurgeOk(st, rid) && rid in st.runners && st.runners[rid].pc == Purging([])
    ensures Inventory(st.world, st.Row().id) == {}
  {
  }

  // --- whole sequences of attempts -------------------------------------------------------------

  /** Right after the delete is admitted: no runner yet. */
  predicate JustAdmitted(st: State) {
    st.Row().matching.Deleting? && StepOf(st.Row()) == STEP_MARKED_DELETING && st.runners == map[]
  }

  lemma AdmissionStartsIt(st: State, actor: Actor)
    requires Inv(st) && DirectEnabled(st, BeginDelete(actor))
    ensures JustAdmitted(DirectApply(st, BeginDelete(actor)))
  {
    assert forall i | i in st.runners :: RunnerOk(st.core, st.runners[i]);
    assert st.runners == map[];
  }

  /** A step of a runner, or of someone else who adds nothing. */
  ghost predicate CascadeStep(st: State, s: Step, st': State) {
    Enabled(st, s) && st' == Apply(st, s) && (s.RunnerBy? || AddsNothing(st.world, st'.world))
  }

  /** Attempts: runners starting, working, failing, dying and overlapping; others act too, but add nothing. */
  ghost predicate IsCascadeRun(states: seq<State>, steps: seq<Step>) {
    && |states| == |steps| + 1
    && forall i | 0 <= i < |steps| :: CascadeStep(states[i], steps[i], states[i + 1])
  }

  /** At every point the world is on its way from `base`, the admitted world less what others took away of
      the automation's own, to what one uninterrupted cascade makes of it. */
  lemma {:induction false} AttemptsConverge(states: seq<State>, steps: seq<Step>, i: nat) returns (base: World)
    requires IsCascadeRun(states, steps) && i < |states| && Inv(states[0]) && JustAdmitted(states[0])
    ensures Inv(states[i]) && Converging(base, states[0].Row(), states[i])
    ensures OnlyOwnGoes(states[0].Row(), states[0].world, base)
    decreases i
  {
    if i == 0 {
      base := states[0].world;
    } else {
      var before := AttemptsConverge(states, steps, i - 1);
      assert CascadeStep(states[i - 1], steps[i - 1], states[i]);
      base := StepConverges(before, states[0].Row(), states[i - 1], steps[i - 1], states[i]);
      OnlyOwnGoesOn(states[0].Row(), states[0].world, before, base);
    }
  }

  lemma BetweenAndDone(w: World, row: Row, now: World)
    requires Between(w, row, now) && DoneUpTo(w, row, now, STEP_DELETED)
    ensures now == CascadedWorld(w, row)
  {
    var final := CascadedWorld(w, row);
    assert now.capps == final.capps;
    assert now.secrets == final.secrets;
    assert now.images == final.images;
  }

  /** The automation's names are in use in the row's wallet only. */
  ghost predicate NothingStranded(w: World, row: Row) {
    && (forall k | k in w.capps && k.name == CappName(row.id) :: k == CappKey(row))
    && (forall k | k in w.secrets && k.name == RunAuthSecretName(row.id) :: k == SecretKey(row))
  }

  /** What others take away of the row's own Capp and Secret, the cascade would have taken away itself. */
  lemma SameCascade(w: World, w': World, row: Row)
    requires OnlyOwnGoes(row, w, w') && NothingStranded(w, row)
    ensures CascadedWorld(w', row) == CascadedWorld(w, row)
  {
    assert w'.capps - {CappKey(row)} == w.capps - {CappKey(row)};
    assert w'.secrets - {SecretKey(row)} == w.secrets - {SecretKey(row)};
  }

  /** However the attempts were interrupted, a row they bring to `deleted` leaves the external world one
      uninterrupted run makes of the admitted world, with at most one archive commit. Deployments stranded
      in other wallets are the one thing others may have taken away besides. */
  lemma AttemptsEndAlike(states: seq<State>, steps: seq<Step>, i: nat) returns (base: World)
    requires IsCascadeRun(states, steps) && i < |states| && Inv(states[0]) && JustAdmitted(states[0])
    requires states[i].Row().matching.Deleted?
    ensures OnlyOwnGoes(states[0].Row(), states[0].world, base)
    ensures states[i].world == CascadedWorld(base, states[0].Row())
    ensures NothingStranded(states[0].world, states[0].Row()) ==>
      states[i].world == CascadedWorld(states[0].world, states[0].Row())
  {
    base := AttemptsConverge(states, steps, i);
    ConvergedWorld(base, states[0].Row(), states[i]);
    if NothingStranded(states[0].world, states[0].Row()) {
      SameCascade(states[0].world, base, states[0].Row());
    }
  }

  lemma ConvergedWorld(w: World, row: Row, st: State)
    requires Converging(w, row, st) && DeletionInv(st.Row()) && st.Row().matching.Deleted?
    ensures st.world == CascadedWorld(w, row)
  {
    BetweenAndDone(w, st.Row(), st.world);
  }
}
