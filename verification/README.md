# Automations control plane: a verified model

This project models the life of one automation as a concurrent protocol and proves what that
protocol keeps, over every run. The state is the `automations` row with its append-only revision
log, the external world (CAPP deployments and run-auth Secrets, the registry inventory, the script
repository) and an unbounded number of actors:

- **edits** claim the row as `building` with a deadline as fencing token, commit to git with
  nothing held, and finish or release only while that token is still on the row;
- **webhook deliveries** are admitted on a snapshot, call CAPP, and are re-admitted under the row
  lock before they cut over, with the raced-failure override and the tear-down after losing to a
  deletion;
- **toggles** and **DELETE admissions**;
- **cascade runners**, any number of them on stale snapshots, doing external work and then a
  compare-and-set checkpoint, failing or dying anywhere;
- the **reconciler**, reduced to its one effect on a row: releasing a build lock.

A database transaction is one atomic step; every git, CAPP and registry call is a step of its own,
so anything may happen between two steps of one actor. Beside the protocol stand the sequential
parts: run finalization against interfering workers, deboarding a wallet, the accumulating
validators, the image-reference grammar and the log throttle.

## How the files fit together

| file | content |
|---|---|
| `Domain.dfy`, `ExternalWorld.dfy` | the records and the external systems |
| `Transactions.dfy` | every database transaction as a guard and an effect |
| `AuditLog.dfy` | the fold of the revision log |
| `RowCore.dfy` | the row invariant, and what each transaction guarantees everyone else |
| `Protocol.dfy`, `Invariant.dfy` | the step relation and its inductive invariant |
| `RowTheorems.dfy`, `OutcomeTheorems.dfy` | audit replay, wallets, freezing, fencing, cutover order, build outcomes |
| `Agreement.dfy`, `Schedules.dfy`, `Deployments.dfy` | served image against recorded digest, and where a deployment came from and is |
| `Provenance.dfy` | which step of the run wrote what the row and the repository hold |
| `Witnesses.dfy` | runs showing which hypotheses are needed, and what stays possible |
| `CascadeOrder.dfy`, `Cleanup.dfy`, `Convergence.dfy`, `CascadeRunner.dfy` | the delete cascade |
| `Stores.dfy` | the row store and the in-memory CAPP and git clients as classes |
| `RunFinalization.dfy`, `Deboard.dfy`, `Validation.dfy`, `ImageReferences.dfy`, `LogThrottle.dfy` | the sequential parts |

The classes do in place what the source does in place, and each method is tied to a function of the
old state; the protocol is built from those same functions, so its theorems speak of what the
methods write. Interference from other processes is written as an arbitrary choice of enabled steps.

## Assumptions

- Commit ids and claim deadlines are fresh. For the in-memory git client freshness is proved, with
  the hash idealised as the text it hashes.
- The revision log is in commit order.
- A failed CAPP call changes nothing; a create is keyed by automation id, returns the name
  `automation-{id}` and lays down the run-auth Secret; a rollout of a deployment that does not exist
  fails (`src/bl/capp_client.py:14-50`).
- A transaction that fails (busy row, database error) writes nothing. A cascade checkpoint may also
  take effect without its answer arriving, and so may a cascade or tear-down call.
- The reconciler moves `building` to `build_failed` and clears the deadline; whether it also clears
  the commit is left open.
- Nothing in CAPP carries an automation's name before the automation is created.

## Where the code and its documentation disagree

- `src/bl/builds.py:19-20` says that the recorded digest is always the served one. Two runs refute it, one with
  overlapping deliveries (`Witnesses.UnserialisedDrift`) and one where a delivery dies after its call
  (`Witnesses.LostCallDrift`). `Schedules.AgreementExactly` says for every run when it holds, in terms of which
  calls landed in whose window; `Schedules.LoneCallAgrees` is the form a caller can arrange.
- `src/bl/capp_client.py:34-37` says that a create finds the automation's deployment in another wallet only after
  an earlier create whose id was never stored. `Witnesses.DeploymentAstray` is a run with serialised calls,
  nothing logged and the id stored, in which a late create finds the deployment in the row's wallet and takes it
  away from there; `Deployments.AtHomeExactly` says when the deployment is in the row's wallet.
- `src/bl/cascade.py:418-419` says that a child in deboard's `failed` list is still active or inactive.
  `Deboard.FailedButDeleting` shows the two ways it can be deleting, an error reading the row back after the
  commit and a busy row that is already deleting; `Deboard.FailedExactly` says when the claim holds.

## Model

| member | source | states |
|---|---|---|
| `Invariant.StepKeepsInv` | src/bl/automations_bl.py:196-340 | Every step of every actor keeps the inductive invariant: the log replays to the row, requests are distinct commits, a lock is held exactly while building, no deleting row builds, every edit's, delivery's and runner's private view stays right under everyone else's writes. |
| `Invariant.RunKeepsInv` | src/bl/builds.py:239-380 | The invariant holds in every reachable state. |
| `Schedules.RowAndCappAgree` | src/bl/builds.py:270-368 | In every run where at most one success at a time is between its CAPP call and its commit and none dies there, whenever none is in that window and the row is not deleting, CAPP serves exactly the recorded digest under the automation's name, or the delivery of the last accepted call itself logged a drift; edits, toggles, failures and reconciler releases interleave freely. |
| `Schedules.AgreementExactly` | src/bl/builds.py:270-346 | In any run, short of a deletion: the served image is not the recorded one if and only if a delivery in whose window the last accepted call landed was recorded later, last and with another image, or no build was recorded since that call and the row did not already carry its image. |
| `Schedules.LoneCallAgrees` | src/bl/builds.py:302-346 | If the last accepted call was made while no other delivery was in its window, and its own delivery left the window without dying there or warning, the served image is the recorded one, whatever overlapped, crashed or was logged before. |
| `Schedules.DisagreementMeans` | src/bl/builds.py:321-359 | Conversely, a disagreement comes from a delivery that overtook the last call, or from that call's own delivery dying or warning. |
| `Schedules.NoCallNoImage` | src/bl/builds.py:258-268 | Before any accepted call nothing is served and nothing is recorded. |
| `Agreement.ServedIsLatest` | src/bl/capp_client.py:114-154 | Short of a deletion CAPP serves the image of the latest call it accepted, whatever else happened. |
| `Witnesses.UnserialisedDrift` | src/bl/builds.py:321-346 | For any two digest-pinned images there is a reachable state that records one and serves the other, with nothing logged and nothing in flight: the serialisation hypothesis is needed. |
| `Witnesses.LostCallDrift` | src/bl/builds.py:270-302 | A lone delivery that dies after its call leaves an image served and nothing recorded or logged: the other half of the hypothesis is needed too. |
| `Witnesses.DeploymentAstray` | src/bl/builds.py:258-346 | With serialised calls, nothing logged and the recorded image served, the deployment can still be in another wallet than the row's. |
| `Witnesses.ReachableHasRun` | src/bl/builds.py:239-380 | Reachability, defined by closed sets, means being at the end of a run, a serialised one where that is claimed. |
| `Deployments.WalletAgreement` | src/bl/automations_bl.py:226-244 | In every reachable state, reconciler releases included, a stored deployment id has a create call of the run behind it, made in exactly the wallet the row names now, and neither the id nor the wallet ever changes again. |
| `Deployments.OnlyCutoversStore` | src/bl/builds.py:383-390 | Whatever the step, a deployment id and its origin are written only by a cutover, with the wallet in which that very delivery made its create call. |
| `Deployments.AtHomeExactly` | src/bl/capp_client.py:32-40 | Short of a deletion the automation has exactly one deployment, in the wallet of the last accepted create; so it is in the row's wallet if and only if that create was made there. |
| `Deployments.RecordedIsServedAtHome` | src/bl/builds.py:270-346 | After a lone call that its delivery survived, with the last create made in the row's wallet, the deployment in that wallet serves the recorded digest. |
| `Cleanup.NothingLeftInTheWallet` | src/bl/builds.py:415-442 | For any runner's Capp delete and a later Secret delete: once every delivery whose CAPP call landed after that Capp delete has completed its commit-time read and tear-down, the row's wallet holds neither the Capp nor the run-auth Secret. |
| `Cleanup.CheckpointTwoHasItsDeletes` | src/bl/cascade.py:265-285 | A row past checkpoint 2 has such a pair of completed deletes behind it. |
| `Convergence.AttemptsEndAlike` | src/bl/cascade.py:257-376 | However cascade attempts are interrupted and overlap, and whatever others do short of adding resources, a row brought to `deleted` leaves the external world one uninterrupted run makes of the admitted one: one archive commit, own Capp, run-auth Secret and images gone, everything else untouched. Only what the automation had stranded in other wallets may have been taken away besides; with nothing stranded the worlds are equal. |
| `Convergence.AttemptsConverge` | src/bl/cascade.py:257-327 | At every point of any sequence of attempts each part of the world is as admitted, less what others took away of the automation's own, or as the cascade leaves it, and the checkpoint never claims work that is not done. |
| `Convergence.OthersAddNothing` | src/bl/builds.py:361-368 | The hypothesis excludes only accepted creates, git commits and image pushes: tear-downs, rollouts and all other steps of others add nothing. |
| `Convergence.SameCascade` | src/bl/builds.py:415-442 | What others take away of the row's own Capp and Secret does not change what the cascade leaves. |
| `Convergence.CascadeLeaves` | src/bl/cascade.py:265-323 | What one cascade leaves, part by part: only the row's own Capp, run-auth Secret and images go; every file stays, the script included; the marker is there in the deleter's name; at most one commit is added. |
| `Convergence.AdmissionStartsIt` | src/bl/cascade.py:155-182 | The state right after an admission meets the starting condition of those sequences. |
| `CascadeRunner.FinishAttempts` | src/bl/cascade.py:339-376 | After any interrupted, overlapping attempts, with others who add nothing, one attempt without failures ends `deleted` in the world of one uninterrupted run, stranded resources aside. |
| `CascadeRunner.Service.RunCascade` | src/bl/cascade.py:339-376 | With anyone acting between its calls, an attempt refuses a row that is not being deleted; otherwise it ends `deleted`, on a failed read of the row, or on one step's error, which it reports as `deleting` with the last step its latest snapshot saw completed and a code of the step after it; after fewer than five passes, so never for lack of progress. |
| `CascadeRunner.Service.StepDeleteCappResources` | src/bl/cascade.py:265-285 | The calls this step adds to the attempt's own are the Capp delete and then the Secret delete, on the row's keys; checkpoint 2 is attempted only after both, and each failure has its own code and ends the step at that call. |
| `CascadeRunner.Service.StepDeleteImages` | src/bl/cascade.py:288-310 | The calls this step adds are a listing, one deletion per listed entry in order, and a second listing; the checkpoint is attempted only when that one is empty, each failure is told by its code and its last call, and without faults or late pushes there is none. |
| `CascadeRunner.Service.StepArchiveScript` | src/bl/cascade.py:313-323 | The one call this step adds is the archive under the deleting actor; checkpoint 4 is attempted only after it. |
| `CascadeRunner.Service.RunStep` | src/bl/cascade.py:330-362 | For every snapshot the loop can see there is a next step; an error-free one leaves the runner about to re-read, and an error is one of that step's own codes. |
| `CascadeOrder.CheckpointsFollowTheWork` | src/bl/cascade.py:216-327 | Checkpoint k implies that every external operation of the steps up to k was completed, in the order Capp delete, Secret delete, inventory seen empty, archive; no registry call precedes both CAPP deletes and no archive precedes an empty inventory. |
| `CascadeOrder.ProgressIsASubsequence` | src/bl/cascade.py:265-323 | The progress measure is witnessed by increasing positions of completed calls on the row's own resources in the journal. |
| `CascadeOrder.StepMovesByOne` | src/bl/cascade.py:216-240 | In every run the checkpoint moves from k-1 to k or not at all. |
| `CascadeOrder.RunnersMakeProgress` | src/bl/cascade.py:339-376 | Every error-free pass raises the step the runner next observes, won or lost, so it makes fewer passes than the step it observes and always has a next step while deleting. |
| `RowTheorems.CutoversNeverGoBack` | src/bl/builds.py:108-154 | At each `build_succeeded` write its commit is the newest requested one, so the requests that successive cutovers answer never go backwards, raced-failure overrides and reconciler releases included. |
| `RowTheorems.OutcomeNamesNewest` | src/bl/builds.py:129-154 | At the instant of any outcome row its commit is the newest create or edit revision's. |
| `AuditLog.NewestIsReplayed` | src/bl/builds.py:129-154 | The raced-failure query reads the last request of the log's fold. |
| `OutcomeTheorems.OutcomesAreLawful` | src/bl/builds.py:239-380 | Without reconciler releases the outcome rows of each commit are none, failed, succeeded, or failed then succeeded, whatever deliveries overlap. |
| `OutcomeTheorems.OutcomeComesFromAnAdmittedDelivery` | src/bl/builds.py:445-470 | In any run an outcome row, a success over a recorded failure included, is written only by a delivery admitted while the row was building that commit. |
| `Witnesses.ReleasedClaimAllowsTwoSuccesses` | src/bl/builds.py:304-320 | With a reconciler release two deliveries of one build can both be recorded as successes: the exclusion above is needed. |
| `RowTheorems.DeletionFreezes` | src/bl/cascade.py:143-182 | From its admission on a deletion is one-way and freezes the row and its log but for the step and the move to `deleted`; the row is never `building`. |
| `RowTheorems.StaleSnapshotsAreRight` | src/bl/cascade.py:313-323 | Every runner's snapshot, however stale, names the row's wallet, deployment and signing actor. |
| `Provenance.DeleterSigns` | src/bl/cascade.py:155-179 | From an admitted DELETE on, the row and every runner's snapshot are signed by whoever sent it, and every archive call of the run is made in that name. |
| `Provenance.StepWritesColumns` | src/bl/builds.py:383-412 | Whatever the step: a recorded build writes image, contract version and created deployment and nothing else does; a landed edit writes the wallet and each definition column of its payload and nothing else does; a human's step signs the row and nothing else does. |
| `Provenance.RowCarriesTheLastBuild` | src/bl/builds.py:383-397 | In every run the row carries the image and the contract version of the last recorded build's own webhook. |
| `Provenance.UnbuiltRowCarriesNothing` | src/bl/automations_bl.py:148-168 | Until a build is recorded it carries neither, and no deployment URL. |
| `Provenance.RowCarriesTheLastEdit` | src/bl/automations_bl.py:316-328 | In every run the row carries the wallet and the whole payload, column by column, of the last edit that landed. |
| `Provenance.RowCarriesItsCreation` | src/bl/automations_bl.py:148-168 | Until an edit lands it carries those of the create request. |
| `Provenance.RepositoryHoldsTheLastScript` | src/bl/automations_bl.py:291-300 | In every run, through any deletion, the repository holds the script of the last edit whose commit landed, its answer received or not. |
| `Provenance.RepositoryHoldsTheFirstScript` | src/bl/automations_bl.py:141-147 | Until then it holds the script of the create request. |
| `Provenance.ToggleAdmittedExactly` | src/bl/lifecycle.py:40-55 | In every reachable state a toggle is admitted exactly when the row is not in deletion and, to enable, has been built; a build in progress does not matter. |
| `Witnesses.ToggleUnderClaim` | src/bl/lifecycle.py:40-77 | In a reachable state an active row claimed by an edit is disabled while the edit is building. |
| `RowTheorems.ClaimFencing` | src/bl/automations_bl.py:247-340 | A finish or release writes only if its claim was held without a break, with nothing but toggles on the row meanwhile; a release restores the row the claim found and keeps the toggles; a lost claim writes nothing, so it never alters a newer one. |
| `RowTheorems.HeldMeanwhile` | src/bl/automations_bl.py:226-244 | In every state between a claim and a point where it is still held, the row is the claimed one with toggles, and no build was requested or recorded. |
| `RowTheorems.ReleaseRestores` | src/bl/automations_bl.py:247-276 | A held claim's release restores the build state and commit the claim found exactly, keeping the toggles. |
| `RowTheorems.LostClaimWritesNothing` | src/bl/automations_bl.py:302-314 | A finish or release whose claim is gone leaves row and log as they are. |
| `RowTheorems.FinishIsTheEdit` | src/bl/automations_bl.py:302-340 | A finish that writes turns the row its claim found into the edited one under the new commit, with name, triggers, secret, cooldown, limits and Logstash URL of the payload, keeps toggles committed in between and logs that one request. |
| `RowTheorems.HeldWithoutBreak` | src/bl/automations_bl.py:196-209 | A claim found on the row has been on it ever since it was taken. |
| `RowTheorems.AuditReplay` | src/bl/lifecycle.py:40-77 | In every reachable state the log's fold gives the matching state, the digest, the generation and at most one delete; requesting revisions name what their commit last produced; an active row has a digest and a deployment. |
| `AuditLog.ReplayCutOver` | src/bl/builds.py:383-412 | A cutover, stamping of the requesting revision included, is one success in the fold. |
| `RowCore.ClaimGood` | src/bl/automations_bl.py:212-244 | A claim keeps the row invariant and promises every other actor that deletions, requests, deployments and held claims stay as they are. |
| `RowCore.FinishGood` | src/bl/automations_bl.py:302-340 | So does a finish, although it re-checks neither the matching state nor the wallet. |
| `RowCore.ReleaseGood` | src/bl/automations_bl.py:247-276 | So does a release. |
| `RowCore.ToggleGood` | src/bl/lifecycle.py:40-77 | So does a toggle. |
| `RowCore.DeleteGood` | src/bl/cascade.py:155-179 | So does a DELETE admission. |
| `RowCore.CheckpointGood` | src/bl/cascade.py:216-240 | So does a checkpoint, won or lost. |
| `RowCore.CutOverGood` | src/bl/builds.py:383-412 | So does a cutover. |
| `RowCore.FailureGood` | src/bl/builds.py:445-470 | So does a recorded failure. |
| `RowCore.CreatedGood` | src/bl/automations_bl.py:148-184 | A created row with its first revision meets the row invariant. |
| `Stores.AutomationStore.constructor` | src/bl/automations_bl.py:148-184 | A new row, column by column: the payload's definition and wallet, inactive, building its first commit under a deadline, nothing deployed, with one create revision. |
| `Stores.AutomationStore.ClaimBuild` | src/bl/automations_bl.py:212-244 | Refused exactly for a deleting row, else for a building one, else for a moved wallet of a deployed one, writing nothing; otherwise the row is claimed and the claim remembers the build state and commit it replaced. |
| `Stores.AutomationStore.ReleaseBuildClaim` | src/bl/automations_bl.py:247-276 | Restores the pre-claim build state and commit only under its own deadline. |
| `Stores.AutomationStore.FinishEdit` | src/bl/automations_bl.py:302-340 | Writes exactly under its own deadline: wallet, each definition column, commit, actor and one edit revision; superseded and without effect otherwise. |
| `Stores.AutomationStore.Toggle` | src/bl/lifecycle.py:32-80 | Accepted exactly when the row is not in deletion and, to enable, has a non-blank digest, with each refusal an iff; then state, generation, actor and one revision with the row's digest move together. |
| `Stores.AutomationStore.BeginDelete` | src/bl/cascade.py:143-182 | A row in deletion is returned unchanged, a building one is refused, any other is marked: step 1, a new generation, the deleter as actor and one delete revision with the row's digest. |
| `Stores.AutomationStore.Checkpoint` | src/bl/cascade.py:216-240 | The compare-and-set wins exactly on a deleting row at the step before, and only step 5 moves the row to `deleted`. |
| `Stores.AutomationStore.Readmit` | src/bl/builds.py:304-320 | At commit time a build goes ahead exactly when the row is not deleting and either is building this commit or has failed with this commit the newest request; deletion and another commit have their own reasons. |
| `Stores.AutomationStore.CommitBuild` | src/bl/builds.py:302-347 | Cuts over exactly when the row is not deleting and is building this commit or failed with it the newest request; otherwise leaves row and log alone and tells whether CAPP is ahead of the row. |
| `Stores.AutomationStore.RecordCutover` | src/bl/builds.py:383-412 | Column by column: the webhook's image and contract version, the created deployment or the old one, an unlocked row, every other column kept; exactly this commit's requests learn the image, and one success is appended. |
| `Stores.AutomationStore.RecordFailure` | src/bl/builds.py:445-470 | An admitted failure clears the lock and appends one failure; each refusal is an iff and writes nothing. |
| `Stores.InMemoryCappClient.CreateDeployment` | src/bl/capp_client.py:114-146 | Its dictionaries represent the CAPP world after create-or-find, with a deployment found in another wallet torn down first; a failing client changes nothing but its call log. |
| `Stores.InMemoryCappClient.Rollout` | src/bl/capp_client.py:148-154 | Its dictionaries represent the CAPP world after the image swap. |
| `Stores.InMemoryGitClient.CommitScript` | src/bl/git_client.py:73-83 | Every commit id is new, and file, log and per-path commit are updated. |
| `Stores.InMemoryGitClient.ArchiveScript` | src/bl/git_client.py:88-95 | With the marker in place there is no second commit and the first one's id is returned. |
| `Stores.NextShaIsFresh` | src/bl/git_client.py:73-83 | The revision counter makes the next commit id of a path differ from all issued ones. |
| `ExternalWorld.CreateServes` | src/bl/capp_client.py:114-146 | After a create exactly one image is served under the automation's name, over all wallets. |
| `ExternalWorld.CreateExactly` | src/bl/capp_client.py:114-146 | A create leaves one deployment under the automation's name, in the wallet asked for, with its run-auth Secret beside it, and touches nothing else. |
| `ExternalWorld.RolloutExactly` | src/bl/capp_client.py:148-154 | A rollout swaps the image under the name and touches nothing else. |
| `RunFinalization.TerminalWritesStand` | src/bl/run_finalization.py:62-82 | Over any interleaving of workers, finalizers and deletions each run gets at most one terminal write, which stands; the finalizer's are `inactive` from pending and `terminated_by_deletion` from submitted, with every other column kept and only on a deleting or deleted automation. |
| `RunFinalization.RunStore.CompleteRunIfOpen` | src/bl/run_finalization.py:62-82 | Writes exactly when the run is open and in the expected state: the state, the time and each given column; absent columns, every other column and every other run are kept. |
| `RunFinalization.RunStore.DeletionStarted` | src/bl/run_finalization.py:43-59 | True exactly for a deleting or deleted automation; unknown ids are told apart. |
| `RunFinalization.RunStore.Attempt` | src/bl/run_finalization.py:123-137 | A lost attempt leaves the run strictly above the expected state; a won one leaves it terminal. |
| `RunFinalization.RunStore.Attribute` | src/bl/run_finalization.py:122-145 | Two attempts suffice under any interference: the run returned is terminal and is what the table holds. |
| `RunFinalization.RunStore.FinalizeTerminatedByDeletion` | src/bl/run_finalization.py:94-145 | Returns a terminal run whenever the automation is being deleted; an already terminal run comes back unchanged and unwritten; otherwise the error tells a missing run from a live automation, and nothing is written. |
| `Deboard.Fleet.DeboardWallet` | src/bl/cascade.py:436-511 | The four lists are the scanned ids split by verdict in scan order; ids reported deleted or in progress are in that state at the end; the pass writes only scanned children and none it skipped. When nobody interferes: no child outside the scan changes, a skipped child is untouched, a failed child is in deletion exactly if it was before or this pass put it there, and when nothing fails every child not building is deleted, leaving the external world of one uninterrupted cascade. |
| `Deboard.Fleet.DeboardChild` | src/bl/cascade.py:471-500 | The same for one child, with the admission and the cascade attempt it consists of. |
| `Deboard.FailedExactly` | src/bl/cascade.py:418-419 | A child listed `failed` is left in deletion if and only if it already was or its delete was committed before the error. |
| `Deboard.FailedButDeleting` | src/bl/cascade.py:478-486 | A reachable child is listed `failed` and left in deletion, once by an error after the commit and once by a busy row. |
| `Deboard.ListsPartitionTheScan` | src/bl/cascade.py:465-504 | The four lists together hold every scanned id exactly as often as the scan. |
| `Deboard.WithIsExact` | src/bl/cascade.py:465-504 | An id is in a list exactly when its child got that verdict. |
| `Deboard.ScanIsExact` | src/bl/cascade.py:453-463 | The scan holds exactly the tenant's rows on the wallet that are not deleted, each once. |
| `Deboard.ScanInOrder` | src/bl/cascade.py:453-463 | The scan stands in the table's order at increasing positions. |
| `Deboard.WithInOrder` | src/bl/cascade.py:465-504 | Each list stands in the scan at increasing positions, where its verdict was given. |
| `Deboard.Fleet.BeginDelete` | src/bl/cascade.py:143-182 | Per child: a missing row raises, a building refusal writes nothing, an admission leaves the child in deletion, and an error before or after the commit shows in the table exactly as the transaction it interrupted. |
| `Deboard.Fleet.RunCascade` | src/bl/cascade.py:339-376 | Per child: the cascade attempt of `CascadeRunner`; the child stays in deletion whatever it raises, a completed one is deleted, without faults or interference it completes, and nobody else's row is touched. |
| `Deboard.Attempt` | src/bl/cascade.py:339-376 | The attempt as a new runner beside those already there keeps the protocol's invariant. |
| `Deboard.EveryStepIsLater` | src/bl/cascade.py:143-182 | What deboard relies on from other processes is what every step of the protocol does to its row. |
| `Validation.ValidateTriggers` | src/bl/validation.py:29-108 | No errors exactly for two to nine well-shaped conditions on pairwise distinct allowlisted fields with values of at most 512 UTF-8 bytes; at most 18 errors. |
| `Validation.EveryFailureIsNamed` | src/bl/validation.py:29-108 | The answer names every broken rule of every condition under its own path and code, and nothing else; over the cap only the count. |
| `Validation.WellShapedExactly` | src/bl/validation.py:56-63 | The well-shaped conditions are exactly the objects of one string field and one string value. |
| `Validation.CooldownFailuresNamed` | src/bl/validation.py:111-160 | The same for the cooldown's rules. |
| `Validation.UrlFailureNamed` | src/bl/ssrf.py:35-79 | The same for the Logstash URL: not https, else unresolvable, else a private address. |
| `Validation.ScriptFailureNamed` | src/bl/ast_check.py:17-66 | The same for the script: too large, else a syntax error, else no handle, else a bad arity. |
| `Validation.EveryPayloadFailureIsNamed` | src/bl/validation.py:191-205 | The whole answer names exactly the rules the payload breaks. |
| `Validation.WidthIsTheEncodings` | src/bl/validation.py:76-78 | The byte length the limits count is that of an encoding that decodes to the same character. |
| `Validation.CapRejectsNothingMore` | src/contracts/limits.py:5-42 | The early count cap rejects nothing the uncapped rules would accept. |
| `Validation.NineFieldsAtMost` | src/contracts/limits.py:7-11 | More than nine conditions always repeat a field or leave the allowlist. |
| `Validation.ValidateCooldown` | src/bl/validation.py:111-160 | No errors exactly when both inputs are absent, or the window is one second to one day and at most nine entries are all allowlisted strings; at most ten errors. |
| `Validation.CooldownCapBindsOnRepeats` | src/bl/validation.py:141-152 | Unlike the triggers' cap, the cooldown's does reject lists of allowlisted fields, and exactly those with more than nine entries, which always repeat one. |
| `Validation.ValidateLogstashUrl` | src/bl/ssrf.py:35-79 | No error exactly for an absent URL, or an https one with a host whose every resolved address is global. |
| `Validation.ScriptAcceptedExactly` | src/bl/ast_check.py:17-66 | No error exactly for a script within the size cap that parses and whose first top-level `handle` takes one or two positional parameters. |
| `Validation.ValidateAutomation` | src/bl/validation.py:191-205 | All failures in one answer: none exactly for an acceptable payload, never more than 33. |
| `Validation.ThirtyThreeIsReached` | src/bl/validation.py:191-205 | Some payload does earn 33. |
| `Validation.AcceptedLimitsAreStored` | src/bl/automations_bl.py:148-160 | For an accepted payload `value or default` replaces only an absent limit, and the stored limits are in range. |
| `ImageReferences.OwnImageExactly` | src/bl/builds.py:203-236 | A success image passes the grammar and the repository binding exactly when it is prefix, slash, automation id, `@sha256:` and 64 lowercase hex digits. |
| `ImageReferences.SettingAcceptedExactly` | src/bl/builds.py:193-200 | The configured prefix is accepted exactly when some image could pass both checks. |
| `ImageReferences.VerdictsExactly` | src/bl/builds.py:203-236 | A pinned image is refused as unconfigured exactly when no image could pass, and as foreign exactly when the setting is usable and the image is not the automation's own. |
| `ImageReferences.PatternIsScanned` | src/models/api/ci_webhook.py:19-37 | The digest-reference pattern and its left-to-right reading accept the same strings. |
| `LogThrottle.Throttle.Allow` | src/api/deps.py:133-140 | A call is swallowed exactly when less than an interval has passed since the last one let through; otherwise it gets the number swallowed since, and the fields are what all calls so far make of them. |
| `LogThrottle.NothingIsLost` | src/api/deps.py:126-140 | Calls = records let through + reported suppressed + still pending, over any call sequence. |
| `LogThrottle.PassesAreSpaced` | src/api/deps.py:133-140 | Records let through are at least one interval apart, and the first call always is one. |
| `LogThrottle.SpanBoundsPasses` | src/api/deps.py:116-124 | With a clock that never goes back, calls within a span T let at most T / interval + 1 records through. |
| `LogThrottle.WindowBoundsPasses` | src/api/deps.py:116-124 | The same bound holds for the records within any window of a longer call sequence. |

## Left out

- FastAPI routes, exception handlers, middleware, the identity shim, configuration and health checks: no deep state.
- SQLAlchemy, lock and statement timeouts and connection pools: a transaction either commits or writes nothing.
- `updated_at`, `script_path` and publishing of reload and build events: no decision reads them, and a publisher never raises (`src/core/reload.py:29-38`).
- The GitLab client with its timeout executor, the Artifactory client, the Redis publishers, DNS resolution, URL parsing and Python parsing: their answers are parameters.
- The script's secret mounts (`secret_refs`) and the clearing of the run-auth key column in checkpoint 2.
- The inside of the reconciler; its lock release is one step that may come at any time.
- A `deleting` row without a checkpoint (`src/bl/cascade.py:257-262`): the invariant shows that no such row arises from this code, and a runner would still handle it.
- Deployments stranded in an old wallet and failed tear-downs are drift the code documents; they are not claimed to be cleaned up.
- Strings with lone surrogates, on which Python's UTF-8 encoding raises: the model's strings have none.
- Floating-point time in the log throttle is modelled by real numbers.
- Token comparison, hashing and log redaction.
- `Stores.InMemoryCappClient.Rollout`: takes the automation id in place of the deployment name, because names are derived from ids.
- Rows created while a deboard pass runs: they are not in its scan.
