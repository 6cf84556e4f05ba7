# Verified model of the Gardener cluster provider

The provider is a Kubernetes controller that turns Cluster objects into Gardener shoots and grants access
to them. Four reconcilers share an in-memory registry. This project models them in Dafny and proves what
their protocols promise: over every run, with API calls that fail at any point and status writes that get
lost.

To check the project, run `dafny verify dfyconfig.toml`.

## How it is built

A pass of a reconciler is one step over explicit maps: the objects on the platform cluster, the shoots on
the garden clusters, the objects on a shoot cluster, the registry, and the pending requests. This is what
the locks of the original give: Landscape and ProviderConfig passes hold the registry exclusively, and the
passes over Clusters and AccessRequests share it, each on objects of its own. What the API answers in a pass
is a record of faults, so a statement about all faults is a statement about all ways a pass can fail. Reads
are up to date.

Each protocol comes twice. The pure definitions say what a pass does to the state and carry the theorems
about runs. The controller modules follow the code with its loops, early returns and updated fields, and are
proved to take exactly the steps of the pure definitions.

| files | what they cover |
|---|---|
| `ClusterLifecycle`, `ClusterSafety`, `ClusterRuns`, `ClusterDeletion`, `ClusterRendering`, `ClusterReach`, `ClusterHarm`, `ClusterTraps`, `ClusterController` | the protocol from a Cluster to its shoot and back |
| `ClusterConfigs`, `ConfigOwnership`, `ConfigRuns` | owner references on ClusterConfigs behind a hash annotation |
| `Registry`, `ProfileCopies`, `WakeUp`, `Registrations`, `WakeUpTraps`, `WakeUpControllers` | the registry with its shoot watches, and the notifications between the controllers |
| `AccessObjects`, `AccessRequests`, `AccessSafety`, `AccessRuns`, `AccessNames`, `AccessTraps`, `AccessConvergence`, `AccessRenewal`, `AccessGrants`, `AccessController` | AccessRequests: demanded objects, cleanup, the skip branch, teardown |
| `TokenRenewal` | the arithmetic of token renewal |
| `KeyedLists`, `ShootFields`, `ShootLayers`, `Versions`, `LifecycleStages`, `StableSort`, `Conditions`, `Common` | shoot generation, versions, and the small algorithms |

## Where the code does not keep what one would expect

Each of these is proved with the exact condition under which the promise holds, and shown to fail otherwise.

- `docs/resources/clusterconfig.md:103-107` promises that overwriting the shoot name by label never orphans a
  shoot. It can, because the lookup skips the labels once a name is recorded. It also trusts a recorded name
  without looking at the labels, and a Cluster without a name label has no conflict check, so it can take over
  the shoot of another one. `PassKeepsSafeIff` has the condition, `HarmfulPassLeadsToHarm` what it
  prevents, and `TwinAfterLostMove`, `OrphanAfterLostMove` and `HijackAfterTakenName` have concrete runs.
- The conflict check comes before the branch for deletions, so a name that somebody else has taken in the
  meantime blocks the release of a Cluster whose own shoot is gone (`CleanPassAdvancesIff`,
  `TakenNameBlocksRelease`, `BlockedReleaseIsReachable`).
- A ClusterConfig keeps a stale owner reference if a settlement fails halfway and the reference list is then
  reverted (`EditThenPassIsExactIff`, `StaleOwnerAfterRevert`). It does not happen if each change is reconciled
  before the next (`ReconciledRunsAreExact`).
- A wake-up is lost if the list of Clusters cannot be read after the new profile has been stored
  (`ConfigPassKeepsWokenIff`, `RetryAfterFailedListWakesNobody`). A changed project namespace notifies nobody
  at all if the spec is the same (`StepKeepsCurrentIff`, `MovedNamespaceWakesNobody`).
- The gate on Landscape deletion looks at the registered ProviderConfigs, not at the registered profiles, and
  the two can disagree (`GateSeesIff`, `UsedLandscapesAreKept`, `GateMissesUsedLandscape`).
- A registration that fails loses the watch of a landscape and, unless that is stuck, its entry
  (`LastOperationDecides`, `FailedSetLosesLandscape`).
- Role names given by AccessRequests are not checked against each other: where ensuring an object relabels it,
  two requests can take a role from one another, and a request can be left with the rules of an earlier one of its own roles
  (`PassKeepsAgreedIff`, `SharedNameTakesRoleAway`, `RepeatedNameKeepsEarlierRules`). It does not happen if no
  demands collide (`CollisionFreeStaysExact`).
- A granted AccessRequest is skipped even if the shoot behind its Cluster has been replaced and has none of its
  objects (`ReplacingKeepsAgreedIff`, `ReplacedShootIsRefilledIff`, `ReplacedShootStaysEmpty`).
- The comparison of shoot conditions misses a vanished type if another type is listed twice (`UnnoticedIff`,
  `DuplicateHidesChange`).

## Model

| member | source | states |
|---|---|---|
| `ClusterRuns.NoOrphanNoTwin` | internal/controllers/cluster/controller.go:142-208 | at every point of every legal run of passes, edits, Gardener deletions and lost writes, each Cluster has at most one shoot labelled for it, and none once it is gone or has lost the provider's finalizer |
| `ClusterSafety.PassKeepsSafeIff` | internal/controllers/cluster/controller.go:142-293 | with any combination of failing calls and lost writes, a pass keeps the safety invariant if and only if it is benign: it does not record a name that is taken, does not take a name another Cluster has recorded, and does not create a shoot while losing the status write that would replace another recorded name |
| `ClusterSafety.HarmfulPassBreaksSafe` | internal/controllers/cluster/shoot.go:42-97 | the other half: a creating pass that is not benign always destroys the invariant, so none of the conditions can be dropped |
| `ClusterHarm.HarmfulPassLeadsToHarm` | internal/controllers/cluster/shoot.go:54-72 | every pass that is not benign can be continued, by edits and passes in which nothing fails, to a shoot that is left behind without its Cluster, gets the labels of a Cluster it did not belong to, or is under deletion although its Cluster is not |
| `ClusterHarm.SafeIsUnharmed` | internal/controllers/cluster/controller.go:142-208 | in a safe world there is no such shoot, and no pass relabels one |
| `ClusterHarm.RunKeepsHolding` | internal/controllers/cluster/controller.go:200-208 | in every run a Cluster with a recorded shoot holds the finalizer, which is the premise of that continuation |
| `ClusterSafety.LookupIsExact` | internal/controllers/cluster/shoot.go:42-97 | in a safe world the lookup says "absent" exactly when no shoot is labelled for the Cluster and otherwise finds that very shoot, although it trusts the recorded name and skips the label search once a name is recorded |
| `ClusterRuns.SteadyRunIsLegal` | internal/controllers/shared/config.go:441-449 | if names and profiles of existing Clusters are not edited and coexisting Clusters resolve to distinct names, every run is legal, whatever calls fail and however many status writes are lost |
| `ClusterRuns.SteadyIsHarmless` | internal/controllers/cluster/controller.go:142-171 | under these premises no failure makes a pass harmful |
| `ClusterRuns.RunKeepsSafe` | internal/controllers/cluster/controller.go:89-383 | safety over whole runs: every legal run ends in a safe world |
| `ClusterRuns.EmptyWorldIsSafe` | internal/controllers/cluster/controller.go:89-100 | a world without shoots and recorded names is a start for all of these runs |
| `ClusterRuns.PassIsIsolated` | internal/controllers/cluster/controller.go:257-271 | in a safe world, whatever its calls answer, a pass changes or adds only shoots labelled for its own Cluster and removes none |
| `ClusterRuns.PassDeletesGated` | internal/controllers/cluster/controller.go:295-340 | a pass puts a shoot under deletion only for its own Cluster, when that is under deletion and has no foreign finalizer, and only together with the confirmation annotation |
| `ClusterRuns.RunsRespectOwners` | internal/controllers/cluster/controller.go:315-340 | both facts for every pass of every legal run; a labelled shoot under deletion is confirmed and its Cluster is under deletion without foreign finalizers |
| `ClusterRendering.ShootCarriesLastSpec` | internal/controllers/cluster/controller.go:257-267 | at the end of every legal run the shoot of a Cluster carries the spec that was rendered last by a pass whose write took effect |
| `ClusterRendering.CleanPassRenders` | internal/controllers/cluster/controller.go:200-293 | where no call fails, a pass over a Cluster that is to be served, and that has a shoot or whose name is free, ends with exactly one labelled shoot, which has the rendered spec and is recorded |
| `ClusterRendering.DeliveredShoot` | internal/controllers/cluster/controller.go:257-276 | a write that takes effect gives the shoot the labels and the rendered spec, keeps its confirmation and deletion, and changes no other shoot |
| `ClusterRendering.NothingDelivered` | internal/controllers/cluster/controller.go:257-267 | any other pass leaves labels and spec of every shoot as they were |
| `ClusterRendering.NameIsRecorded` | internal/controllers/cluster/controller.go:236-255 | a pass that gets to the write records the name of its shoot, unless the status is lost, and holds the finalizer |
| `ClusterRendering.CreatedInPlace` | internal/controllers/shared/config.go:441-449 | a new shoot is created in the project namespace under the name of a non-empty label or else the generated one |
| `ClusterRendering.GeneratedNamesDiffer` | internal/controllers/shared/config.go:441-443 | different Clusters have different generated names |
| `ClusterRendering.UnservedIsLeftAlone` | internal/controllers/cluster/controller.go:102-140 | a Cluster that is ignored, or whose profile or landscape is not registered with a handle, is left alone |
| `ClusterRendering.FailedPreparationWritesNothing` | internal/controllers/cluster/controller.go:200-234 | where finalizer, ClusterConfigs, rendering or the labels of the Cluster fail, no shoot is created, updated or recorded |
| `ClusterRendering.ConflictIsLeftAlone` | internal/controllers/cluster/controller.go:148-171 | so is one without a shoot whose name label gives a name that is in use |
| `ClusterRendering.LookupOutcome` | internal/controllers/cluster/shoot.go:42-97 | what the lookup finds, said over the shoots alone: the recorded one, whoever it is labelled for, or the only labelled one of the project namespace; a failing call or several of them make it fail |
| `ClusterRendering.FailedLookupIsIdle` | internal/controllers/cluster/controller.go:142-147 | a pass whose lookup fails changes nothing |
| `ClusterRendering.ReleasedAsFarAsPossible` | internal/controllers/cluster/controller.go:342-367 | a pass that gets to the release keeps what it has released, also if it then fails |
| `ClusterDeletion.CleanPassAdvancesIff` | internal/controllers/cluster/controller.go:148-171 | without API errors a pass over a Cluster under deletion gets strictly closer to its release, if and only if it is not Gardener's turn and the conflict check, which also comes before deletions, does not find the overridden name taken by somebody else |
| `ClusterDeletion.TakenNameBlocksRelease` | internal/controllers/cluster/controller.go:148-171 | a Cluster under deletion whose shoot is gone and whose overridden name belongs to somebody else's shoot is never released, in any legal run, until it is edited or that shoot goes away |
| `ClusterDeletion.BlockedPassIsIdle` | internal/controllers/cluster/controller.go:148-171 | no pass over such a Cluster changes anything, whichever calls fail |
| `ClusterDeletion.ShootGoneAdvances` | internal/controllers/cluster/controller.go:315-340 | when Gardener removes the labelled shoot, the measure goes down and no labelled shoot is left |
| `ClusterDeletion.PassNeverSetsBack` | internal/controllers/cluster/controller.go:295-380 | no pass, whichever Cluster it is for and whatever fails in it, takes a Cluster under deletion further from its release |
| `ClusterDeletion.DistanceFalls` | internal/controllers/cluster/controller.go:295-380 | over every legal run the measure of a Cluster under deletion never rises before its release, whatever fails and whatever users and other Clusters do, and drops with every effective step: a pass without failures when it is the controller's turn, or Gardener's removal of the shoot |
| `ClusterDeletion.DeletionTerminates` | internal/controllers/cluster/controller.go:295-380 | a legal run with as many effective steps as the measure has released the Cluster, with at most three of them once the foreign finalizers are gone |
| `ClusterDeletion.LastPassReleases` | internal/controllers/cluster/controller.go:342-378 | the last pass leaves neither the Cluster, nor a labelled shoot, nor an owner reference on a ClusterConfig |
| `ClusterDeletion.DeletionCompletes` | internal/controllers/cluster/controller.go:295-380 | a pass without errors, Gardener's removal and a second pass end the deletion |
| `ClusterDeletion.FinalizersLostIff` | internal/controllers/cluster/controller.go:620-625 | comparing the lengths of the finalizer lists is exact: on an object under deletion the filter fires if and only if some finalizer is gone |
| `ClusterDeletion.UnblockingUpdateWakes` | internal/controllers/cluster/controller.go:300-312 | the update that removes the last foreign finalizer always wakes the Cluster, whose waiting pass is not requeued |
| `ClusterTraps.TwinAfterLostMove` | internal/controllers/cluster/shoot.go:72-97 | a concrete run from a world without Clusters to two shoots for one Cluster: a lost status write while another name is recorded, then an edited name label |
| `ClusterTraps.OrphanAfterLostMove` | docs/resources/clusterconfig.md:103-107 | a concrete run from a world without Clusters to an orphaned shoot by way of the name label, which the documentation rules out |
| `ClusterTraps.HijackAfterTakenName` | internal/controllers/cluster/shoot.go:54-66 | a concrete run from a world without Clusters in which a Cluster without a name label records a name that is taken, and its next pass relabels the shoot of another Cluster |
| `ClusterTraps.BlockedReleaseIsReachable` | internal/controllers/cluster/controller.go:148-171 | a concrete run from a world without Clusters to such a blocked Cluster, which has no foreign finalizer |
| `ClusterController.GetShoot` | internal/controllers/cluster/shoot.go:42-97 | the recorded shoot, or the only labelled one of the project namespace, or a failure, as the protocol says |
| `ClusterController.Locate` | internal/controllers/cluster/controller.go:89-171 | the early returns of a pass: it goes on if and only if the Cluster, its profile, a landscape with a handle and the lookup answer and the conflict check passes |
| `ClusterController.ForeignFinalizers` | internal/controllers/cluster/controller.go:300-312 | all finalizers but the provider's, in order |
| `ClusterController.CallGarden` | internal/controllers/cluster/controller.go:257-276 | the shoot map after the create call or the update call, which is skipped when nothing changes |
| `ClusterController.RequestDeletion` | internal/controllers/cluster/controller.go:315-340 | confirmation, then deletion, of a shoot that is not under deletion yet |
| `ClusterController.CreateOrUpdateShoot` | internal/controllers/cluster/controller.go:200-293 | the new state of the create or update branch, with every early return |
| `ClusterController.DeleteShoot` | internal/controllers/cluster/controller.go:295-380 | the new state of the delete branch, with every early return |
| `ClusterController.ClusterReconciler.Reconcile` | internal/controllers/cluster/controller.go:89-383 | a pass of the controller object takes exactly one step of the protocol, the one its call outcomes select |
| `ConfigRuns.ReconciledRunsAreExact` | internal/controllers/cluster/controller.go:511-597 | in every run in which each change of a reference list is reconciled to success before the next, with passes that fail anywhere in between, a pass that gets through leaves the Cluster's owner reference on exactly the referenced ClusterConfigs of its namespace and renews the hash, and no reference names a Cluster that is gone or has lost its finalizer |
| `ConfigRuns.EditThenPassIsExactIff` | internal/controllers/cluster/controller.go:525-594 | whatever went on before, an edit and a pass that gets through end in exact references if and only if the edit does not go back to the list whose hash is recorded while a ClusterConfig outside that list has the Cluster as owner |
| `ConfigRuns.StaleReferenceStays` | internal/controllers/cluster/controller.go:525-594 | no pass of any run removes a stale reference behind a matching hash, until the list is changed or the Cluster or the ClusterConfig is deleted |
| `ConfigRuns.EmptyWorldIsReconciled` | internal/controllers/cluster/controller.go:511-524 | a world without Clusters and ClusterConfigs is a start for these runs |
| `ConfigOwnership.PassKeepsOwnership` | internal/controllers/cluster/controller.go:511-597 | a pass keeps this invariant wherever it stops, and where it gets through the references are exact |
| `ClusterConfigs.SettleExactIff` | internal/controllers/cluster/controller.go:525-594 | after a successful settlement the references are exact if and only if the hash had changed or none was stale before |
| `ClusterConfigs.SettleKeepsOthers` | internal/controllers/cluster/controller.go:525-586 | whatever happens in a pass, all other owner references of every ClusterConfig stay, in order |
| `ClusterConfigs.SettleAppends` | internal/controllers/cluster/controller.go:558-586 | a referenced ClusterConfig keeps its owner references as they are, and gets the missing one at the end |
| `ClusterConfigs.ReleaseKeepsOthers` | internal/controllers/cluster/controller.go:342-367 | the same for the release on deletion |
| `ClusterConfigs.ReleaseClears` | internal/controllers/cluster/controller.go:342-367 | a complete release leaves no owner reference of the Cluster on any ClusterConfig |
| `ClusterController.CutStaleOwners` | internal/controllers/cluster/controller.go:525-556 | in whatever order the list comes, exactly the handled and unreferenced ClusterConfigs lose the reference; on success all of the namespace are handled |
| `ClusterController.AddOwners` | internal/controllers/cluster/controller.go:558-586 | exactly the referenced ClusterConfigs dealt with so far gain a missing reference; success means that all of them exist |
| `ClusterController.GetClusterConfigs` | internal/controllers/cluster/controller.go:511-597 | the settlement with its partial outcomes, and the hash, which is renewed only on success |
| `ClusterController.ReleaseConfigs` | internal/controllers/cluster/controller.go:342-367 | the release with its partial outcomes |
| `ClusterTraps.StaleOwnerAfterRevert` | internal/controllers/cluster/controller.go:525-594 | a concrete run from a world without Clusters in which a settlement that fails halfway and a reverted edit leave a stale reference, and for all later runs that it stays until the list is changed or an object is deleted |
| `ShootFields.GeneratedTwice` | internal/controllers/cluster/shoot.go:101-212 | without JSON patches, generating the fields again changes nothing, not even the order of a list |
| `ShootFields.UnchangedIffUpToDate` | internal/controllers/cluster/controller.go:219-267 | a pass leaves a shoot alone if and only if it has the enforced metadata, a version that is high enough, the lists that template, enforced extensions and ClusterConfigs ask for, and the other fields of the template |
| `ShootFields.AtMostOneUpdate` | internal/controllers/cluster/controller.go:257-271 | as long as its inputs stay the same, all passes together issue at most one update, and none for a shoot that is up to date |
| `ShootFields.ExtensionIsLastWriter` | internal/controllers/cluster/shoot.go:179-204 | the final settings of an extension type are those of the last layer that mentions it: ClusterConfigs in order, enforced extensions (OIDC when the list is nil, none when it is empty), template or else shoot |
| `ShootFields.ResourceIsLastWriter` | internal/controllers/cluster/shoot.go:259-275 | the same for resources by name |
| `ShootFields.PositionsAreKept` | internal/controllers/cluster/shoot.go:239-275 | existing extensions and resources keep their positions, and each new key is appended exactly once |
| `ShootLayers.OidcIsEnforcedByDefault` | internal/controllers/cluster/shoot.go:182-189 | without a list of enforced extensions the shoot has the OIDC extension in its default form, unless a ClusterConfig mentions it |
| `ShootLayers.EnforcedListCounts` | internal/controllers/cluster/shoot.go:188-204 | with a list each of its types has the settings listed last for it, unless a ClusterConfig mentions it |
| `ShootLayers.EmptyListEnforcesNothing` | internal/controllers/cluster/shoot.go:182-190 | with an empty list and no ClusterConfigs the extensions and resources are those of the template or else the shoot |
| `ShootLayers.LastConfigCounts` | internal/controllers/cluster/shoot.go:239-258 | a ClusterConfig has the last word on the types it mentions, unless a later one mentions them |
| `ShootLayers.LastConfigCountsForResource` | internal/controllers/cluster/shoot.go:259-275 | the same for resources |
| `ShootLayers.OtherExtensionsAreKept` | internal/controllers/cluster/shoot.go:160-204 | all other types are as in the template or, if that lists none, as in the shoot |
| `ShootLayers.AnnotationsAreLayered` | internal/controllers/cluster/shoot.go:106-126 | three annotations have their fixed values whatever is said elsewhere; for the others the template beats the passed metadata, which beats the shoot |
| `ShootLayers.LabelsAreLayered` | internal/controllers/cluster/shoot.go:128-149 | the four reference labels name the Cluster, the provider and the environment whatever is said elsewhere; the others are layered in the same way |
| `ShootLayers.OtherFieldsAreLayered` | internal/controllers/cluster/shoot.go:151-177 | the template overrides the other fields, but neither an existing control plane configuration nor a version that is not lower, and machine image updates are off wherever the flag is set |
| `ShootFields.PassesPreserve` | internal/controllers/cluster/shoot.go:101-177 | whatever template, ClusterConfigs and metadata become, no run of passes lowers the version, changes a control plane configuration, drops an annotation, label or other field or leaves machine image updates on, and the labels name the last Cluster |
| `ShootFields.EnsureMeta` | internal/controllers/cluster/shoot.go:115-149 | the loop over the enforced entries, in any order and with its early exit, results in the override of the existing entries by the enforced ones |
| `ShootFields.ApplyClusterConfigs` | internal/controllers/cluster/shoot.go:236-275 | the nested loops upsert all extensions and all resources of the ClusterConfigs in order |
| `ShootFields.Shoot.UpdateShootFields` | internal/controllers/cluster/shoot.go:101-212 | the shoot object ends up with the generated fields: the layers in the order of the code |
| `ShootFields.UpdateIfChanged` | internal/controllers/cluster/controller.go:219-267 | an update is issued if and only if the shoot is not up to date |
| `KeyedLists.UpsertInto` | internal/controllers/cluster/shoot.go:243-257 | the search loop overwrites the first entry with the key, or appends |
| `KeyedLists.LookupAfterUpsertAll` | internal/controllers/cluster/shoot.go:191-204 | upserting a list of writes is map override by the last writer |
| `KeyedLists.UpsertAllKeys` | internal/controllers/cluster/shoot.go:191-204 | the keys afterwards are the old ones in place, followed by the new ones in the order of their first write |
| `KeyedLists.UnchangedIff` | internal/controllers/cluster/shoot.go:191-204 | an upsert changes nothing if and only if the list already holds the last write of every key |
| `KeyedLists.UpsertAllIdempotent` | internal/controllers/cluster/shoot.go:236-275 | upserting the same writes again changes nothing, even if keys repeat in the list or among the writes |
| `Versions.VersionIsMaximum` | internal/controllers/cluster/shoot.go:214-234 | over any sequence of configured versions the shoot has a version that is lower than none of the configured ones and its own, and higher than all before it, so ties keep the existing string; lower is the relation of ReleasesCompareIff |
| `Versions.VersionNeverGoesDown` | internal/controllers/cluster/shoot.go:151-165 | at no point of such a history is the version lower, in that relation, than at an earlier one |
| `Versions.PartialVersionReplacesIff` | internal/controllers/cluster/shoot.go:214-219 | a configured version without patch number replaces an existing one of the same minor if and only if that is a pre-release of patch zero |
| `Versions.ReleasesTotalOrder` | internal/controllers/cluster/shoot.go:223-229 | precedence is antisymmetric, transitive and zero only for equal releases |
| `Versions.ReleasesCompareIff` | internal/controllers/cluster/shoot.go:223-229 | a release compares lower exactly if its major, then its minor, then its patch is lower, or all are equal and it is a pre-release of the other or its identifiers come first: numbers by value, before texts, which compare by their first differing character, and a proper prefix before the longer list (section 11 of Semantic Versioning 2.0.0) |
| `Versions.ExtractSupportedVersions` | internal/controllers/config/controller.go:236-277 | the loop and the sort result in the stably sorted offers of the CloudProfile |
| `Versions.SupportedVersionsAreExact` | internal/controllers/config/controller.go:236-277 | a profile offers exactly the versions that are supported or deprecated by their classification or else by the stage that has started last, or that have stages none of which has started, with the right flag, as often as they are listed, no lower version above a higher one, and equal ones in their order |
| `Versions.OffersOfOne` | internal/controllers/config/controller.go:237-265 | the offer of a single entry: one with its flag if it counts, else none |
| `Versions.OffersConcat` | internal/controllers/config/controller.go:237-265 | the offers of a list are those of its parts, in order |
| `LifecycleStages.DetermineCurrentLifecycleStage` | internal/controllers/config/controller.go:410-445 | sort and scan find the first of the started stages with the latest start time, else the last stage without start time, else none; a start time is read only where there is one |
| `LifecycleStages.CurrentStageIsThere` | internal/controllers/config/controller.go:408-445 | position by position: the current stage is the first of the started ones that no other starts later than, else the last one without a start time, and there is none exactly if all stages start in the future |
| `LifecycleStages.SortKeepsWithStart` | internal/controllers/config/controller.go:414-426 | the sort keeps the stages of each start time in their order |
| `StableSort.SortKeepsPeers` | internal/controllers/config/controller.go:267-277 | stability of the sort both callers rely on |
| `Conditions.ConditionsChanged` | internal/controllers/shared/config.go:244-262 | the nested loops report a change if and only if the lengths differ or some new condition is not found unchanged among the old ones |
| `Conditions.DetectorIsExact` | internal/controllers/shared/config.go:241-265 | for unique types a change is reported if and only if the lists differ as maps from type to condition, although only the new conditions are scanned |
| `Conditions.DetectorIsSymmetric` | internal/controllers/shared/config.go:244-262 | the report is the same with old and new exchanged |
| `Conditions.DetectorIgnoresOrder` | internal/controllers/shared/config.go:241-243 | the report does not depend on the order of either list |
| `Conditions.DuplicateHidesChange` | internal/controllers/shared/config.go:244-262 | a concrete pair of lists with a repeated type whose difference is not reported |
| `Conditions.UnnoticedIff` | internal/controllers/shared/config.go:244-262 | for arbitrary lists a difference goes unnoticed if and only if the lengths agree, every new condition is the first old one of its type, and an old type is gone |
| `Conditions.UniqueNewTypesHideNothing` | internal/controllers/shared/config.go:244-262 | as long as the new types are unique every difference is reported, whatever the old list looks like |
| `Registry.OneWatchPerLandscape` | internal/controllers/shared/config.go:196-316 | over every sequence of registrations and removals, whatever informer calls fail, at most one watch runs per landscape name and it watches the cluster registered under that name |
| `Registry.AllWatchedIff` | internal/controllers/shared/config.go:302-316 | an operation leaves every registered landscape with a handle watched if and only if it does not get stuck on an informer that cannot be removed |
| `Registry.WatchesAreExact` | internal/controllers/shared/config.go:196-316 | over every sequence in which informers can be removed, exactly the registered landscapes with a handle are watched, even where new informers cannot be had |
| `Registry.LastOperationDecides` | internal/controllers/shared/config.go:196-316 | over every sequence of operations the last one on a name decides: the landscape is watched afterwards if and only if that was a successful registration with a handle, and registered if and only if it was a successful registration or got stuck on the old entry; so a failed one always loses a watch, and only a successful one restores it |
| `Registry.OperationOutcome` | internal/controllers/shared/config.go:196-316 | entry and watch after one operation: a stuck entry stays unwatched, a removal and a registration without informer drop it, and any other registration puts the new handle, availability and projects there and is watched exactly if there is a handle; other entries stay |
| `Registry.FailedSetLosesLandscape` | internal/controllers/shared/config.go:196-214 | a concrete run, for every name, in which a registered and watched landscape is lost by a registration without informer and restored by the next successful one |
| `Registry.StartMatches` | internal/controllers/shared/config.go:99-109 | the empty registry is a start for these sequences |
| `Registry.ProfileNamesAreInjective` | internal/controllers/shared/config.go:437-439 | different ProviderConfigs have different profile names |
| `Registry.RuntimeConfiguration.SetLandscape` | internal/controllers/shared/config.go:196-290 | the new registry and watches, with both error returns |
| `Registry.RuntimeConfiguration.UnsetLandscape` | internal/controllers/shared/config.go:302-316 | the watch is stopped in any case, the entry goes only if the informer can be removed |
| `Registry.RuntimeConfiguration.SetProfileForProviderConfiguration` | internal/controllers/shared/config.go:318-328 | the profile is stored under its generated name, or removed |
| `Registry.RuntimeConfiguration.UpdateLandscapeResource` | internal/controllers/shared/config.go:292-300 | only an existing entry is renewed, and keeps its handle and watch |
| `ProfileCopies.Profile.DeepCopy` | internal/controllers/shared/config.go:419-435 | a copy that says the same and consists of new objects only |
| `ProfileCopies.ProfileRegistry.GetProfile` | internal/controllers/shared/config.go:158-167 | what is handed out shares no object with what is stored |
| `ProfileCopies.ProfileRegistry.SetProfile` | internal/controllers/shared/config.go:318-328 | what is stored shares no object with what was given |
| `ProfileCopies.OutsideWritesDoNotReachIn` | internal/controllers/shared/config.go:158-167 | whoever writes only outside the registry's own objects leaves its contents unchanged |
| `ProfileCopies.ChangeCopy` | internal/controllers/shared/config.go:430-435 | a caller that overwrites everything in a profile it was handed out does not change what is stored |
| `WakeUp.NoLostClusterWakeUp` | internal/controllers/config/controller.go:66-99 | in every run in which the list calls that matter answer, a Cluster whose last pass saw no profile, or another spec than the one now registered, has a request pending |
| `WakeUp.ConfigPassKeepsWokenIff` | internal/controllers/config/controller.go:77-99 | a ProviderConfig pass loses a wake-up if and only if the list call fails while a Cluster that has seen something else sleeps |
| `WakeUp.StepKeepsCurrentIff` | internal/controllers/config/controller.go:361-366 | a step keeps it true that every Cluster has seen the spec and the namespace of its registered profile or has a request pending, if and only if it is not a pass that renews the profile without a notification, be it because the list call fails or because the specs are equal, while a Cluster without a request has seen something else |
| `WakeUp.NoLostNamespace` | internal/controllers/config/controller.go:77-99 | the same over every run without such a pass |
| `WakeUp.EmptyRegistryIsWoken` | internal/controllers/shared/config.go:99-109 | an empty registry with empty queues is a start for all of these runs, whatever objects there are |
| `WakeUp.NoLostConfigWakeUp` | internal/controllers/landscape/controller.go:92-149 | in every run, even if registrations fail, a ProviderConfig whose last pass did not find its Landscape has a request pending as soon as that Landscape is registered |
| `WakeUp.RunKeepsProfilesHaveConfigs` | internal/controllers/config/controller.go:68-100 | at every point every registered profile belongs to a registered ProviderConfig |
| `Registrations.LiveConfigsAreRegistered` | internal/controllers/config/controller.go:66-100 | a pass whose calls answer leaves a ProviderConfig registered with its current spec exactly if it is there, belongs to the provider, is not ignored and is not under deletion, and otherwise neither entry nor profile; objects under deletion leave the API |
| `Registrations.ProfilesAreRenewed` | internal/controllers/config/controller.go:193-297 | it renews the profile exactly if the Landscape is registered with the project and the CloudProfile is named and found, from the spec, the namespace of the project and the versions, and otherwise leaves it |
| `Registrations.OtherConfigsAreKept` | internal/controllers/config/controller.go:71-98 | it touches no other ProviderConfig, profile or Landscape |
| `Registrations.UnansweredPassKeepsRegistry` | internal/controllers/config/controller.go:68-69 | where the platform cluster does not answer, the registry stays and nobody is woken |
| `Registrations.ClustersAreNotified` | internal/controllers/config/controller.go:86-94 | exactly the users of a profile are woken, if it is new or its spec has changed and the list call answers |
| `Registrations.LandscapesAreRegistered` | internal/controllers/landscape/controller.go:92-113 | a pass whose calls answer leaves a Landscape registered, with the new entry, exactly if it is there, not ignored, and not under deletion or still used, in the latter case without a handle |
| `Registrations.StuckEntryIsRefreshed` | internal/controllers/landscape/controller.go:126-129 | an entry whose informer cannot be removed keeps its handle and still learns the new availability and projects |
| `Registrations.ConfigsAreNotified` | internal/controllers/landscape/controller.go:131-149 | exactly the registered ProviderConfigs of a Landscape are woken, if its entry appears, disappears or changes its availability |
| `Registrations.UnansweredLandscapePassKeepsRegistry` | internal/controllers/landscape/controller.go:93-95 | where the platform cluster does not answer, objects and registry stay, and the ProviderConfigs of a registered Landscape are woken as if it had disappeared |
| `WakeUp.LandscapeReleasedIff` | internal/controllers/landscape/controller.go:371-416 | without errors a deletion pass releases a Landscape if and only if no registered ProviderConfig refers to it |
| `WakeUp.LandscapeNeverReleasedInUse` | internal/controllers/landscape/controller.go:371-392 | with any errors, a Landscape that a registered ProviderConfig refers to keeps its finalizer |
| `WakeUp.GateSeesIff` | internal/controllers/config/controller.go:71-98 | the gate stops seeing the Landscape of a registered profile exactly when its ProviderConfig is registered with another one by a pass that does not renew the profile |
| `WakeUp.UsedLandscapesAreKept` | internal/controllers/landscape/controller.go:371-392 | in every run without such a pass, whatever else fails, no step releases a Landscape that a registered profile uses |
| `WakeUp.StepKeepsAllSeenIff` | internal/controllers/config/controller.go:71-98 | a step keeps it true for all ProviderConfigs at once if and only if it is not such a pass |
| `WakeUpTraps.RetryAfterFailedListWakesNobody` | internal/controllers/config/controller.go:79-94 | a concrete run from an empty registry in which the retry after a failed list call finds the profile "not updated" and notifies nobody |
| `WakeUpTraps.MovedNamespaceWakesNobody` | internal/controllers/config/controller.go:361-366 | a concrete run from an empty registry, with any number of passes, that changes the project namespace of a registered profile while a Cluster that has seen the old one has no request pending, since only specs are compared |
| `WakeUpTraps.GateMissesUsedLandscape` | internal/controllers/config/controller.go:71-98 | a concrete run from an empty registry that releases a Landscape under a registered profile which still uses it |
| `WakeUpControllers.Reconcilers.NotifyClustersAboutProfileUpdate` | internal/controllers/config/controller.go:338-359 | a request for exactly the Clusters that use the profile, unless the list call fails |
| `WakeUpControllers.Reconcilers.RegisterOutcome` | internal/controllers/config/controller.go:66-100 | the registry is renewed with the outcome of the pass whether or not the list call for the notification succeeds |
| `WakeUpControllers.Reconcilers.ReconcileProviderConfig` | internal/controllers/config/controller.go:60-117 | a pass of the controller object has exactly the effect of the pass of the protocol |
| `WakeUpControllers.Reconcilers.ReconcileLandscape` | internal/controllers/landscape/controller.go:80-152 | the same for the Landscape controller |
| `WakeUpControllers.Reconcilers.IsReferenced` | internal/controllers/landscape/controller.go:380-392 | the reference gate over the registered ProviderConfigs |
| `WakeUpControllers.LandscapePhaseUpdate` | internal/controllers/landscape/controller.go:418-442 | terminating exactly when under deletion, and ready exactly when there is neither an error nor a false condition |
| `AccessRuns.GrantedStaysExact` | internal/controllers/accessrequest/controller.go:215-263 | in every run of benign passes, edits and losses, with statuses lost at any time and no shoot replaced under a granted request that has objects, a request granted for its current generation has exactly the objects its spec demands, so skipping it is sound |
| `AccessNames.CollisionFreeStaysExact` | internal/controllers/accessrequest/access.go:384-388 | the same with a premise on specs alone: in every run in which no spec is created or edited that demands an object of another live request, or one object twice with different contents, whatever fails; role names given by requests are allowed |
| `AccessNames.GeneratedIsCollisionFree` | internal/controllers/accessrequest/access.go:370-388 | requests that let the controller name their roles never collide |
| `AccessSafety.PassKeepsAgreedIff` | internal/controllers/accessrequest/controller.go:215-299 | a pass keeps all granted requests exact if and only if it writes to no object of another granted request and, if it fails halfway on a granted request and its status is lost too, stops at no demand that a later one overrides |
| `AccessSafety.GrantingPassIsExact` | internal/controllers/accessrequest/controller.go:265-299 | whatever earlier specs have left: a full pass grants the request if and only if all demands, the secret and the cleanup succeed, and then its objects are exact |
| `AccessSafety.PassLeavesOthersObjects` | internal/controllers/accessrequest/access.go:100-134 | a pass leaves every object that is not labelled for its request as it is, except those it writes |
| `AccessRuns.NoObjectOutlivesItsRequest` | internal/controllers/accessrequest/controller.go:301-345 | in every run, with no premise on what fails: while the Cluster exists, a request keeps its finalizer until none of its objects is left |
| `AccessRuns.PassKeepsTracked` | internal/controllers/accessrequest/controller.go:301-345 | one pass, whatever fails in it, keeps it true that every labelled object belongs to a request with a finalizer as long as the Cluster exists |
| `AccessRuns.PassReleasesIff` | internal/controllers/accessrequest/controller.go:134-139 | a pass lets a request go if and only if it is under deletion, its finalizer can be removed, and the Cluster is gone or the cleanup succeeds; where the Cluster is gone it touches no object |
| `AccessRuns.ReplacingKeepsAgreedIff` | internal/controllers/accessrequest/controller.go:215-263 | a new shoot behind the Cluster leaves all granted requests exact if and only if none of them had an object |
| `AccessRuns.EmptyWorldIsAgreed` | internal/controllers/accessrequest/controller.go:90-106 | a world without requests and labelled objects is a start for these runs |
| `AccessObjects.CleanupIsOrdered` | internal/controllers/accessrequest/access.go:114-131 | a cleanup, complete or not, deletes only unwanted objects of its request, and a role or account only once no unwanted binding is left |
| `AccessObjects.CleanupIsExact` | internal/controllers/accessrequest/access.go:100-134 | after a cleanup without error the request has exactly the kept ones of its objects and everything else is untouched |
| `AccessConvergence.OnePassSuffices` | internal/controllers/accessrequest/controller.go:265-299 | a full pass without failures grants the request if and only if its demands can be met, and its objects are then exact, whatever was there before |
| `AccessConvergence.GrantedIsAtRest` | internal/controllers/accessrequest/controller.go:215-263 | after such a pass the secret satisfies the skip branch until the renewal time computed from it |
| `AccessConvergence.RestIsKept` | internal/controllers/accessrequest/controller.go:248-262 | a pass without failures over a request at rest changes nothing at all |
| `AccessConvergence.ReplacedShootIsRefilledIff` | internal/controllers/accessrequest/controller.go:215-263 | after the shoot has been replaced, a pass without failures restores the objects of a granted request if and only if it gets past the skip branch; a request at rest is left granted without them |
| `AccessConvergence.ReplacedShootStaysEmpty` | internal/controllers/accessrequest/controller.go:215-263 | a concrete run from a world without requests: a request is created and granted, the shoot is replaced, and the next pass changes nothing although the request has lost its account |
| `AccessConvergence.TeardownCompletes` | internal/controllers/accessrequest/controller.go:301-345 | a pass without failures over a request under deletion is its last one and leaves no object of it and all objects of others |
| `AccessNames.CollisionFreeIsBenign` | internal/controllers/accessrequest/controller.go:265-299 | where no demands collide, no pass interferes with a granted request, its own or another |
| `AccessNames.PermissionsAreGranted` | internal/controllers/accessrequest/access.go:381-430 | for every permission of an exact token request that does not collide with itself there is a role with its rules, in its namespace or cluster-wide, and a binding of the request's account to it |
| `AccessGrants.RoleRefsAreBound` | internal/controllers/accessrequest/access.go:432-458 | every role reference of an exact token request is bound to its account, in a namespace for a Role and cluster-wide otherwise |
| `AccessGrants.IssuerIsThere` | internal/controllers/accessrequest/access.go:526-558 | an exact OIDC request has an OpenIDConnect object with issuer, client, claims and prefixes of its spec, a dash standing for no prefix |
| `AccessGrants.OidcRolesAreThere` | internal/controllers/accessrequest/access.go:561-602 | every role of an exact OIDC request is there with its rules, in its namespace or cluster-wide, under its name or a generated one |
| `AccessGrants.OidcRefsAreBound` | internal/controllers/accessrequest/access.go:604-653 | every reference to a role is bound to all subjects in order, whose names follow two colons or get the prefix of their kind |
| `AccessGrants.OtherRefsAreNeverMet` | internal/controllers/accessrequest/access.go:648-650 | a request with a reference to anything else never has all its demands met |
| `AccessGrants.ErrorsDoNotStopOthers` | internal/controllers/accessrequest/access.go:394-404 | whatever tasks fail, every task that meets with no failure has its objects, as long as the account or issuer is there |
| `AccessGrants.NothingWithoutAccount` | internal/controllers/accessrequest/access.go:369-375 | a pass that cannot ensure the account or issuer touches no object and no secret, and takes the grant back |
| `AccessGrants.NoCleanupAfterErrors` | internal/controllers/accessrequest/controller.go:274-286 | a pass in which a task fails deletes nothing |
| `AccessNames.NoLeftovers` | internal/controllers/accessrequest/controller.go:274-296 | an exact token request has no OpenIDConnect object and an exact OIDC request no account, whatever it asked for before |
| `AccessTraps.SharedNameTakesRoleAway` | internal/controllers/accessrequest/access.go:385-402 | a concrete run without any failure, for every role name and all rules, from a world without requests: a request is created and granted with its role, then a second one that gives its role the same name; afterwards the first request is unchanged and granted, has no such role, and further passes over it change nothing, while the second has the role |
| `AccessTraps.RepeatedNameKeepsEarlierRules` | internal/controllers/accessrequest/access.go:384-430 | a concrete run, for every role name and all rules that differ, from a world without requests: a request with two roles of one name is created and granted with the rules of the second, which its demands ask for; after an enforced pass that fails between the two and loses its status it is still granted, the role has the rules of the first, and further passes change nothing |
| `AccessController.EnsurePermissions` | internal/controllers/accessrequest/access.go:384-430 | the loop over the permissions tries a role and a binding for each, goes on after an error, and keeps them all if there was none |
| `AccessController.EnsureRoleRefs` | internal/controllers/accessrequest/access.go:432-458 | the loop over the role references |
| `AccessController.EnsureOidcRoles` | internal/controllers/accessrequest/access.go:561-602 | the loop over the roles of an OIDC request |
| `AccessController.EnsureOidcBindings` | internal/controllers/accessrequest/access.go:604-653 | the nested loops over role bindings and their references, with prefixed subjects; an unknown kind is an error |
| `AccessController.EnsureToken` | internal/controllers/accessrequest/access.go:369-463 | account first, then permissions, then references; nothing follows a failed account |
| `AccessController.EnsureOidc` | internal/controllers/accessrequest/access.go:526-657 | OpenIDConnect object first, then roles, then bindings |
| `AccessController.CleanupObjects` | internal/controllers/accessrequest/access.go:136-342 | a cleanup loop deletes exactly the labelled objects of its kind that are neither kept nor stuck, and reports an error if and only if one is stuck or the list call fails |
| `AccessController.CleanupResources` | internal/controllers/accessrequest/access.go:100-134 | kind by kind in the fixed order up to the first error |
| `AccessController.CheckSecret` | internal/controllers/accessrequest/controller.go:215-263 | the verdict on the secret of a granted request |
| `AccessController.EnsureAccess` | internal/controllers/accessrequest/controller.go:265-299 | the stages after the skip branch |
| `AccessController.HandleCreateOrUpdate` | internal/controllers/accessrequest/controller.go:194-299 | the create or update branch with every early return |
| `AccessController.HandleDelete` | internal/controllers/accessrequest/controller.go:301-327 | the delete branch with every early return |
| `AccessController.AccessRequestReconciler.Reconcile` | internal/controllers/accessrequest/controller.go:90-192 | a pass of the controller object has exactly the effect of the pass of the protocol |
| `TokenRenewal.RenewalFromSecret` | internal/controllers/accessrequest/controller.go:229-247 | the renewal time computed from full seconds is never later than the exact one, less than a second earlier, and lies between the stated creation and expiry |
| `TokenRenewal.HonouredRequeueRenews` | internal/controllers/accessrequest/controller.go:247-252 | a pass that comes when it is due renews the token |
| `TokenRenewal.TokenStaysLive` | internal/controllers/accessrequest/access.go:465-485 | as long as no pass is late by more than a fifth of the validity less one second, the secret holds a live token at all times |
| `AccessRenewal.SecretStaysLive` | internal/controllers/accessrequest/controller.go:228-255 | the same for whole runs of the protocol, with passes over other requests and edits at any time: the secret is there at every point and states an expiry in the future at every pass |
| `AccessRenewal.RenewedHoldsToken` | internal/controllers/accessrequest/access.go:465-485 | every pass that renews a token is a start for such a run |
| `AccessRenewal.TokenIsRenewedIff` | internal/controllers/accessrequest/controller.go:215-279 | a pass in which nothing fails writes the full seconds of a new token, and grants the request with exactly its objects, if and only if it is not granted for its generation, is annotated or has no secret, or the stamps are missing or four fifths of the time between them have passed; otherwise it changes nothing |
| `AccessRenewal.OidcIsRenewedIff` | internal/controllers/accessrequest/controller.go:256-262 | the same for OIDC, where only the first three reasons count |
| `AccessRenewal.GarbledSecretTakesGrantBack` | internal/controllers/accessrequest/controller.go:232-245 | stamps that cannot be read take the grant back, so that the next pass renews |
| `AccessRenewal.IgnoredRequestIsLeftAlone` | internal/controllers/accessrequest/controller.go:93-125 | a request that is ignored or cannot be read is left alone |
| `AccessRenewal.EarlyFailureTakesGrantBack` | internal/controllers/accessrequest/controller.go:134-149 | a pass that fails before it comes to the objects touches neither them nor a secret, and takes the grant back |
| `TokenRenewal.BoundIsNearlyTight` | internal/controllers/accessrequest/controller.go:41 | with a delay of a full fifth the token can be found expired |

## Left out

- Kubernetes API servers, clients, informers and caches: they are maps, and every call may fail. Stale reads are not modelled, nor are edits of foreign controllers beyond the steps named in the models.
- Users who remove the provider's finalizers themselves, and several providers or environments that share a garden project.
- JSON patches of ClusterConfigs, and the internals of the merge library: a template overrides what it sets, field by field, and its lists replace those of the shoot unless they are empty.
- Hashing of names and of reference lists: taken to be injective. A role name given by a user is taken to differ from the names the controller generates.
- The library that ensures objects on a shoot cluster is not part of this model: ensuring an object that exists is taken to give it the content and labels of the request, also if it has the labels of another request, or to fail. If the library always refuses such an object, two requests cannot take a role from one another, and the second one is never granted.
- Kubeconfigs, REST configurations and temporary admin access to shoots: they only succeed or fail.
- Namespaces on shoot clusters: creating one only succeeds or fails, together with the first object that needs it, and none is ever deleted.
- The OpenIDConnect kind missing on a shoot cluster: reads as an empty list, which has the same effect on the cleanup.
- Status conditions, events and logging, and the shoot observability resources.
- Writing projects and conditions into the status of a Landscape: a pass comes up with an entry that is a parameter of the model.
- The thread manager behind the shoot watches: a watch runs from its start until its entry is stopped.
- An AccessRequest that asks for neither a token nor OIDC is granted without a secret, and the next pass over it crashes on the missing reference; such a pass is modelled as one without effect.
- A registered landscape without a cluster handle makes some passes crash; such a pass is modelled as one without effect.
- Aliasing between registry entries in `Registry` and `WakeUp`, which work on values; `ProfileCopies` has the copies of profiles on the heap.
- Parsing of version strings and timestamps: versions come parsed, a timestamp of a secret is missing, unreadable or a number of seconds. Floating-point rounding of the renewal time.
- ShootFields.Shoot.UpdateShootFields: does not model the result when a ClusterConfig has JSON patches.
- Versions.VersionIsMaximum: does not model versions that cannot be parsed, which make a pass crash.
- The access of several AccessRequests with long names to the same secret name, and AccessRequests that change the Cluster they refer to.
