/** The stateful objects behind the protocol: the row with its log as the transactions update it,
    and the in-memory CAPP and git clients. */
module Stores {
  import opened Domain
  import opened ExternalWorld
  import opened Transactions

  datatype Result<+T> = Ok(value: T) | Err(refusal: Refusal)

  /** One automation's row and revisions. Each method is one transaction: it writes the columns one by
      one, and its contract is the whole new database. */
  class AutomationStore {
    const id: Uuid
    const tenant: string
    const createdBy: Actor
    var namespace: Wallet
    var definition: Definition
    var cappDeploymentId: Option<ResourceName>
    var deploymentUrl: Option<string>
    var matching: MatchingState
    var build: BuildState
    var activeDigest: Option<Image>
    var buildingSha: Option<Sha>
    var contractVersion: Option<string>
    var lockDeadline: Option<Deadline>
    var cascadeStep: Option<nat>
    var indexGeneration: nat
    var updatedBy: Actor
    var log: seq<Revision>

    function Contents(): Db
      reads this
    {
      Db(Row(id, tenant, namespace, definition, cappDeploymentId, deploymentUrl, matching, build, activeDigest,
             buildingSha, contractVersion, lockDeadline, cascadeStep, indexGeneration, createdBy, updatedBy), log)
    }

    /** `create_automation`, after its git commit. */
    constructor (id: Uuid, tenant: string, data: AutomationIn, actor: Actor, sha: Sha, deadline: Deadline)
      ensures Contents() == Db(CreatedRow(id, tenant, data, actor, sha, deadline), [Revision(Create(sha), None, actor)])
      ensures this.id == id && this.tenant == tenant && createdBy == actor && updatedBy == actor
      ensures namespace == data.namespace && StoredAs(definition, data)
      ensures matching == Inactive && build == Building && buildingSha == Some(sha) && lockDeadline == Some(deadline)
      ensures cappDeploymentId == None && deploymentUrl == None && activeDigest == None && contractVersion == None
      ensures cascadeStep == None && indexGeneration == 0 && log == [Revision(Create(sha), None, actor)]
    {
      this.id, this.tenant, this.createdBy, this.updatedBy := id, tenant, actor, actor;
      namespace, definition := data.namespace, DefinitionOf(data);
      cappDeploymentId, deploymentUrl, activeDigest, contractVersion := None, None, None, None;
      matching, cascadeStep, indexGeneration := Inactive, None, 0;
      build, buildingSha, lockDeadline := Building, Some(sha), Some(deadline);
      log := [Revision(Create(sha), None, actor)];
    }

    method ClaimBuild(data: AutomationIn, deadline: Deadline) returns (r: Result<BuildClaim>)
      modifies this`build, this`lockDeadline, this`buildingSha
      ensures var db := old(Contents());
        match ClaimRefusal(db.row, data)
        case Some(refusal) => r == Err(refusal) && Contents() == db
        case None => r == Ok(ClaimOf(db.row, deadline)) && Contents() == db.(row := Claimed(db.row, deadline))
      ensures r == Err(LifecycleConflict) <==> matching.InDeletion()
      ensures r == Err(AlreadyBuilding) <==> !matching.InDeletion() && old(build).Building?
      ensures r == Err(NamespaceImmutable) <==>
        !matching.InDeletion() && !old(build).Building? && cappDeploymentId.Some? && data.namespace != namespace
      ensures r.Ok? <==>
        !matching.InDeletion() && !old(build).Building? && (cappDeploymentId.None? || data.namespace == namespace)
      ensures r.Ok? ==>
        && r.value == BuildClaim(deadline, old(build), old(buildingSha))
        && build == Building && lockDeadline == Some(deadline) && buildingSha == None
      ensures r.Err? ==> build == old(build) && lockDeadline == old(lockDeadline) && buildingSha == old(buildingSha)
    {
      if matching.InDeletion() {
        return Err(LifecycleConflict);
      }
      if build.Building? {
        return Err(AlreadyBuilding);
      }
      if cappDeploymentId.Some? && data.namespace != namespace {
        return Err(NamespaceImmutable);
      }
      r := Ok(BuildClaim(deadline, build, buildingSha));
      build := Building;
      lockDeadline := Some(deadline);
      buildingSha := None;
    }

    method ReleaseBuildClaim(claim: BuildClaim)
      modifies this`build, this`lockDeadline, this`buildingSha
      ensures Contents() == old(Contents()).(row := Released(old(Contents()).row, claim))
      ensures old(build).Building? && old(lockDeadline) == Some(claim.deadline) ==>
        build == claim.previousBuildState && buildingSha == claim.previousBuildingSha && lockDeadline == None
      ensures !(old(build).Building? && old(lockDeadline) == Some(claim.deadline)) ==>
        build == old(build) && buildingSha == old(buildingSha) && lockDeadline == old(lockDeadline)
    {
      if build.Building? && lockDeadline == Some(claim.deadline) {
        build := claim.previousBuildState;
        buildingSha := claim.previousBuildingSha;
        lockDeadline := None;
      }
    }

    /** The second transaction of an edit. */
    method FinishEdit(claim: BuildClaim, data: AutomationIn, actor: Actor, sha: Sha) returns (refusal: Option<Refusal>)
      modifies this`namespace, this`definition, this`buildingSha, this`updatedBy, this`log
      ensures var db := old(Contents());
        if Holds(db.row, claim.deadline) then refusal == None && Contents() == FinishedEdit(db, data, actor, sha)
        else refusal == Some(Superseded) && Contents() == db
      ensures refusal.None? <==> build.Building? && lockDeadline == Some(claim.deadline)
      ensures refusal.None? ==>
        && namespace == data.namespace && StoredAs(definition, data) && buildingSha == Some(sha) && updatedBy == actor
        && log == old(log) + [Revision(Edit(sha), None, actor)]
    {
      if !build.Building? || lockDeadline != Some(claim.deadline) {
        return Some(Superseded);
      }
      namespace := data.namespace;
      definition := DefinitionOf(data);
      buildingSha := Some(sha);
      updatedBy := actor;
      log := log + [Revision(Edit(sha), None, actor)];
      return None;
    }

    method Toggle(enable: bool, actor: Actor) returns (refusal: Option<Refusal>)
      modifies this`matching, this`indexGeneration, this`updatedBy, this`log
      ensures refusal == ToggleRefusal(old(Contents()).row, enable)
      ensures Contents() == if refusal.Some? then old(Contents()) else Toggled(old(Contents()), enable, actor)
      ensures refusal.None? <==>
        !old(matching).InDeletion() && (enable ==> activeDigest.Some? && !Blank(activeDigest.value.reference))
      ensures refusal == Some(LifecycleConflict) <==> old(matching).InDeletion()
      ensures refusal == Some(ActiveDigestRequired) <==>
        !old(matching).InDeletion() && enable && (activeDigest.None? || Blank(activeDigest.value.reference))
      ensures refusal.None? ==>
        && matching == (if enable then Active else Inactive)
        && indexGeneration == old(indexGeneration) + 1 && updatedBy == actor
        && log == old(log) + [Revision(if enable then Enable else Disable, activeDigest, actor)]
    {
      if matching.InDeletion() {
        return Some(LifecycleConflict);
      }
      if enable && (activeDigest.None? || Blank(activeDigest.value.reference)) {
        return Some(ActiveDigestRequired);
      }
      matching := if enable then Active else Inactive;
      indexGeneration := indexGeneration + 1;
      updatedBy := actor;
      log := log + [Revision(if enable then Enable else Disable, activeDigest, actor)];
      return None;
    }

    /** DELETE admission: whether this call started the deletion. */
    method BeginDelete(actor: Actor) returns (r: Result<bool>)
      modifies this`matching, this`cascadeStep, this`indexGeneration, this`updatedBy, this`log
      ensures var db := old(Contents());
        if db.row.matching.InDeletion() then r == Ok(false) && Contents() == db
        else match DeleteRefusal(db.row)
             case Some(refusal) => r == Err(refusal) && Contents() == db
             case None => r == Ok(true) && Contents() == DeleteBegun(db, actor)
      ensures r == Ok(false) <==> old(matching).InDeletion()
      ensures r == Err(AlreadyBuilding) <==> !old(matching).InDeletion() && build.Building?
      ensures r == Ok(true) <==> !old(matching).InDeletion() && !build.Building?
      ensures r == Ok(true) ==>
        && matching == Deleting && cascadeStep == Some(1)
        && indexGeneration == old(indexGeneration) + 1 && updatedBy == actor
        && log == old(log) + [Revision(Delete, activeDigest, actor)]
    {
      if matching.InDeletion() {
        return Ok(false);
      }
      if build.Building? {
        return Err(AlreadyBuilding);
      }
      matching := Deleting;
      cascadeStep := Some(STEP_MARKED_DELETING);
      indexGeneration := indexGeneration + 1;
      updatedBy := actor;
      log := log + [Revision(Delete, activeDigest, actor)];
      return Ok(true);
    }

    /** The compare-and-set of a cascade step. */
    method Checkpoint(completed: nat) returns (won: bool)
      requires completed >= 1
      modifies this`cascadeStep, this`matching
      ensures won == CheckpointMatches(old(Contents()).row, completed)
      ensures Contents() == old(Contents()).(row := Checkpointed(old(Contents()).row, completed))
      ensures won <==>
        old(matching) == Deleting && old(cascadeStep) == (if completed == 1 then None else Some(completed - 1))
      ensures won ==> cascadeStep == Some(completed) && matching == (if completed == 5 then Deleted else Deleting)
      ensures !won ==> cascadeStep == old(cascadeStep) && matching == old(matching)
    {
      var expected := completed - 1;
      won := matching.Deleting? && (if expected == 0 then cascadeStep.None? else cascadeStep == Some(expected));
      if won {
        cascadeStep := Some(completed);
        if completed == STEP_DELETED {
          matching := Deleted;
        }
      }
    }

    /** The commit-time admission: a build that only its own raced failure refuses goes ahead. */
    method Readmit(sha: Sha) returns (reason: Option<IgnoredReason>)
      ensures reason == CommitReason(Contents(), sha)
      ensures reason.None? <==>
        && !matching.InDeletion()
        && ((build.Building? && buildingSha == Some(sha)) || (build.BuildFailed? && NewestRequest(log) == Some(sha)))
      ensures reason == Some(RowDeleting) <==> matching.InDeletion()
      ensures reason == Some(ShaMismatch) <==> !matching.InDeletion() && build.Building? && buildingSha != Some(sha)
    {
      reason := Admission(Contents().row, sha);
      if reason == Some(NotBuilding) && FailureRaced(Contents(), sha) {
        reason := None;
      }
    }

    /** The cutover's transaction: admission re-checked, a raced failure overridden. */
    method CommitBuild(event: CiWebhook, created: Option<CappDeployment>)
      returns (reason: Option<IgnoredReason>, aheadOfRow: bool)
      requires event.outcome.Success?
      modifies this`cappDeploymentId, this`deploymentUrl, this`activeDigest, this`contractVersion, this`build,
               this`buildingSha, this`lockDeadline, this`log
      ensures reason == CommitReason(old(Contents()), event.sha)
      ensures aheadOfRow == (reason.Some? && old(activeDigest) != Some(event.outcome.image))
      ensures Contents() == if reason.Some? then old(Contents()) else CutOver(old(Contents()), event, created)
      ensures reason.None? <==>
        && !matching.InDeletion()
        && ((old(build).Building? && old(buildingSha) == Some(event.sha))
            || (old(build).BuildFailed? && NewestRequest(old(log)) == Some(event.sha)))
      ensures reason.None? ==> CutOverColumns(old(Contents()), event, created, Contents())
    {
      reason := Readmit(event.sha);
      if reason.Some? {
        aheadOfRow := activeDigest != Some(event.outcome.image);
        return;
      }
      aheadOfRow := false;
      RecordCutover(event, created);
    }

    /** `_cut_over`: the columns and the two kinds of revision. */
    method RecordCutover(event: CiWebhook, created: Option<CappDeployment>)
      requires event.outcome.Success?
      modifies this`cappDeploymentId, this`deploymentUrl, this`activeDigest, this`contractVersion, this`build,
               this`buildingSha, this`lockDeadline, this`log
      ensures Contents() == CutOver(old(Contents()), event, created)
      ensures CutOverColumns(old(Contents()), event, created, Contents())
    {
      CutOverWritesColumns(old(Contents()), event, created);
      if created.Some? {
        cappDeploymentId := Some(created.value.deploymentId);
        deploymentUrl := Some(created.value.deploymentUrl);
      }
      activeDigest := Some(event.outcome.image);
      contractVersion := Some(event.outcome.contractVersion);
      build := Idle;
      buildingSha := None;
      lockDeadline := None;
      log := Stamp(log, event.sha, event.outcome.image);
      log := log + [Revision(BuildSucceeded(event.sha), Some(event.outcome.image), BUILD_ACTOR)];
    }

    method RecordFailure(sha: Sha) returns (reason: Option<IgnoredReason>)
      modifies this`build, this`buildingSha, this`lockDeadline, this`log
      ensures reason == Admission(old(Contents()).row, sha)
      ensures Contents() == if reason.Some? then old(Contents()) else FailureRecorded(old(Contents()), sha)
      ensures reason == Some(RowDeleting) <==> matching.InDeletion()
      ensures reason == Some(NotBuilding) <==> !matching.InDeletion() && !old(build).Building?
      ensures reason == Some(ShaMismatch) <==>
        !matching.InDeletion() && old(build).Building? && old(buildingSha) != Some(sha)
      ensures reason.None? ==>
        && build == BuildFailed && buildingSha == None && lockDeadline == None
        && log == old(log) + [Revision(BuildFailure(sha), None, BUILD_ACTOR)]
    {
      reason := Admission(Contents().row, sha);
      if reason.Some? {
        return;
      }
      build := BuildFailed;
      buildingSha := None;
      lockDeadline := None;
      log := log + [Revision(BuildFailure(sha), None, BUILD_ACTOR)];
    }
  }

  /** What a cutover leaves, column by column: the build's image and version, the created deployment if there
      is one, an unlocked row; the requests for this commit learn the image, and one success is logged. */
  ghost predicate CutOverColumns(before: Db, event: CiWebhook, created: Option<CappDeployment>, after: Db)
    requires event.outcome.Success?
  {
    && after.row == before.row.(
         cappDeploymentId := after.row.cappDeploymentId, deploymentUrl := after.row.deploymentUrl,
         activeDigest := Some(event.outcome.image), contractVersion := Some(event.outcome.contractVersion),
         build := Idle, buildingSha := None, lockDeadline := None)
    && (created.Some? ==>
          && after.row.cappDeploymentId == Some(created.value.deploymentId)
          && after.row.deploymentUrl == Some(created.value.deploymentUrl))
    && (created.None? ==>
          && after.row.cappDeploymentId == before.row.cappDeploymentId
          && after.row.deploymentUrl == before.row.deploymentUrl)
    && |after.log| == |before.log| + 1
    && after.log[|before.log|] == Revision(BuildSucceeded(event.sha), Some(event.outcome.image), BUILD_ACTOR)
    && (forall i | 0 <= i < |before.log| ::
          && after.log[i].action == before.log[i].action && after.log[i].actor == before.log[i].actor
          && after.log[i].resultingDigest ==
               if before.log[i].action in {Create(event.sha), Edit(event.sha)} then Some(event.outcome.image)
               else before.log[i].resultingDigest)
  }

  lemma CutOverWritesColumns(db: Db, event: CiWebhook, created: Option<CappDeployment>)
    requires event.outcome.Success?
    ensures CutOverColumns(db, event, created, CutOver(db, event, created))
  {
  }

  // --- CAPP ------------------------------------------------------------------------------

  datatype CappCall =
    | CreateCall(id: Uuid, wallet: Wallet, image: Image)
    | TeardownCall(name: ResourceName)
    | RolloutCall(name: ResourceName, image: Image)

  lemma CappNamesDiffer(id: Uuid, id': Uuid)
    requires id != id'
    ensures CappName(id) != CappName(id')
  {
    assert CappName(id).text[|"automation-"|..] == id.text;
    assert CappName(id').text[|"automation-"|..] == id'.text;
  }

  /** The in-memory client's dictionaries, and when they hold what world `w` holds under the
      automations' names. */
  datatype CappBooks = CappBooks(deployments: map<Uuid, CappDeployment>, wallets: map<Uuid, Wallet>,
                                 images: map<ResourceName, Image>)
  {
    ghost predicate Valid() {
      && wallets.Keys == deployments.Keys
      && forall id | id in deployments ::
           && deployments[id].deploymentId == CappName(id) && CappName(id) in images
           && deployments[id].wallet == wallets[id] && deployments[id].deploymentUrl == DeploymentUrl(wallets[id], id)
    }

    ghost predicate Represents(w: World)
      requires Valid()
    {
      forall id: Uuid, wallet: Wallet ::
        if id in deployments && wallets[id] == wallet
        then Key(wallet, CappName(id)) in w.capps && w.capps[Key(wallet, CappName(id))] == images[CappName(id)]
        else Key(wallet, CappName(id)) !in w.capps
    }

    lemma CreateRepresents(w: World, id: Uuid, wallet: Wallet, image: Image, d: CappDeployment,
                           images': map<ResourceName, Image>)
      requires Valid() && Represents(w) && d == CappDeployment(CappName(id), DeploymentUrl(wallet, id), wallet)
      requires images'.Keys >= images.Keys - {CappName(id)}
      requires forall name | name in images' && name != CappName(id) :: name in images && images'[name] == images[name]
      ensures var books' := CappBooks(deployments[id := d], wallets[id := wallet], images'[CappName(id) := image]);
        books'.Valid() && books'.Represents(CreateDeployment(w, id, wallet, image))
    {
      forall other: Uuid | other != id ensures CappName(other) != CappName(id) {
        CappNamesDiffer(id, other);
      }
    }

    lemma RolloutRepresents(w: World, id: Uuid, image: Image)
      requires Valid() && Represents(w)
      ensures var books' := this.(images := images[CappName(id) := image]);
        books'.Valid() && books'.Represents(Rollout(w, CappName(id), image))
    {
      forall other: Uuid | other != id ensures CappName(other) != CappName(id) {
        CappNamesDiffer(id, other);
      }
    }
  }

  class InMemoryCappClient {
    const fail: bool
    var deployments: map<Uuid, CappDeployment>
    var wallets: map<Uuid, Wallet>
    var images: map<ResourceName, Image>
    var calls: seq<CappCall>

    function Books(): CappBooks
      reads this
    {
      CappBooks(deployments, wallets, images)
    }

    constructor (fail: bool)
      ensures Books().Valid() && this.fail == fail && Books().Represents(World(map[], {}, map[], map[], []))
      ensures calls == []
    {
      this.fail := fail;
      deployments, wallets, images, calls := map[], map[], map[], [];
    }

    /** Create or find; a deployment in another wallet is torn down and recreated in this one. */
    method CreateDeployment(id: Uuid, wallet: Wallet, image: Image, ghost w: World) returns (r: Option<CappDeployment>)
      requires Books().Valid() && Books().Represents(w)
      modifies this`deployments, this`wallets, this`images, this`calls
      ensures calls == old(calls) + [CreateCall(id, wallet, image)]
                       + (if !fail && id in old(wallets) && old(wallets)[id] != wallet
                          then [TeardownCall(CappName(id))] else [])
      ensures fail ==> r == None && Books() == old(Books())
      ensures !fail ==> r == Some(CappDeployment(CappName(id), DeploymentUrl(wallet, id), wallet))
      ensures !fail ==> Books().Valid() && Books().Represents(ExternalWorld.CreateDeployment(w, id, wallet, image))
    {
      calls := calls + [CreateCall(id, wallet, image)];
      if fail {
        return None;
      }
      var deployment := CappDeployment(CappName(id), DeploymentUrl(wallet, id), wallet);
      if id in deployments && wallets[id] == wallet {
        deployment := deployments[id];
      }
      var kept := images;
      if id in deployments && wallets[id] != wallet {
        calls := calls + [TeardownCall(deployments[id].deploymentId)];
        kept := kept - {deployments[id].deploymentId};
      }
      Books().CreateRepresents(w, id, wallet, image, deployment, kept);
      deployments := deployments[id := deployment];
      wallets := wallets[id := wallet];
      images := kept[deployment.deploymentId := image];
      r := Some(deployment);
    }

    /** Swap the image of an existing deployment. */
    method Rollout(id: Uuid, image: Image, ghost w: World) returns (accepted: bool)
      requires Books().Valid() && Books().Represents(w)
      modifies this`images, this`calls
      ensures accepted == !fail && Books().Valid() && calls == old(calls) + [RolloutCall(CappName(id), image)]
      ensures Books().Represents(if accepted then ExternalWorld.Rollout(w, CappName(id), image) else w)
    {
      calls := calls + [RolloutCall(CappName(id), image)];
      if fail {
        return false;
      }
      Books().RolloutRepresents(w, id, image);
      images := images[CappName(id) := image];
      accepted := true;
    }
  }

  // --- git --------------------------------------------------------------------------------

  /** Every commit id issued for a path carries one of its past revisions. */
  ghost predicate Issued(revisions: map<string, nat>, shas: map<string, Sha>, issued: set<Sha>) {
    && revisions.Keys == shas.Keys
    && (forall sha | sha in issued :: sha.path in revisions && sha.revision <= revisions[sha.path])
    && (forall path | path in shas :: shas[path] in issued && shas[path].path == path)
  }

  function NextSha(revisions: map<string, nat>, path: string, content: string): Sha {
    Sha(path, (if path in revisions then revisions[path] else 0) + 1, content)
  }

  lemma NextShaIsFresh(revisions: map<string, nat>, shas: map<string, Sha>, issued: set<Sha>, path: string,
                       content: string)
    requires Issued(revisions, shas, issued)
    ensures var sha := NextSha(revisions, path, content);
      sha !in issued && Issued(revisions[path := sha.revision], shas[path := sha], issued + {sha})
  {
  }

  /** The in-memory script repository. */
  class InMemoryGitClient {
    var files: map<string, string>
    var revisions: map<string, nat>
    var shas: map<string, Sha>
    var commitLog: seq<string>
    ghost var issued: set<Sha>

    ghost predicate Valid()
      reads this
    {
      Issued(revisions, shas, issued) && files.Keys == shas.Keys
    }

    /** The git part of the world. */
    function Repository(): World
      reads this
    {
      World(map[], {}, map[], files, commitLog)
    }

    constructor ()
      ensures Valid() && Repository() == World(map[], {}, map[], map[], []) && issued == {}
    {
      files, revisions, shas, commitLog, issued := map[], map[], map[], [], {};
    }

    /** The freshness of commit ids that the protocol assumes: no id is ever issued twice. */
    method CommitScript(path: string, content: string, message: string) returns (sha: Sha)
      requires Valid()
      modifies this
      ensures Valid() && sha !in old(issued) && issued == old(issued) + {sha}
      ensures Repository() == CommitFile(old(Repository()), path, content, message)
      ensures shas == old(shas)[path := sha] && files == old(files)[path := content]
      ensures commitLog == old(commitLog) + [message]
    {
      NextShaIsFresh(revisions, shas, issued, path, content);
      var revision := (if path in revisions then revisions[path] else 0) + 1;
      revisions := revisions[path := revision];
      sha := Sha(path, revision, content);
      files := files[path := content];
      shas := shas[path := sha];
      commitLog := commitLog + [message];
      issued := issued + {sha};
    }

    /** Archive-mark an automation's path: one commit however often it is asked for. */
    method ArchiveScript(id: Uuid, actor: Actor) returns (sha: Sha)
      requires Valid()
      modifies this
      ensures Valid() && ArchiveMarkerPath(id) in shas && sha == shas[ArchiveMarkerPath(id)]
      ensures Repository() == Archive(old(Repository()), id, actor)
      ensures id.text + "/.archived" in old(files) ==>
        files == old(files) && commitLog == old(commitLog) && shas == old(shas) && issued == old(issued)
      ensures id.text + "/.archived" !in old(files) ==>
        && files == old(files)[id.text + "/.archived" := "archived by " + actor.email + "\n"]
        && commitLog == old(commitLog) + ["archive " + id.text]
    {
      var path := ArchiveMarkerPath(id);
      if path in files {
        return shas[path];
      }
      sha := CommitScript(path, MarkerContent(actor), ArchiveMessage(id));
    }
  }
}
