# Verified model of the oneblock controllers

Oneblock runs its machine-learning platform as a set of Kubernetes controllers, an
admission webhook and a few API actions. Nearly all of them share one shape: read objects
from a cache that may be stale, compute, write back under optimistic concurrency, and run again
after a conflict or a crash. This project models that shape and the handlers that depend on
it most, and proves what they promise over whole runs.

| module | what it models |
|---|---|
| `ApiStore` | the API server: resource versions, conflicts, the status subresource, and the history a cache may return |
| `ModelVersions`, `VersionProtocol` | model template versions and everything that writes them, as a state machine with crashes, stale copies, users and interleaved calls |
| `VersionInvariants`, `VersionRuns`, `VersionCollisions` | what every step keeps, what whole runs keep, and exactly when version numbers collide |
| `TemplateHandlers` | the two controllers as classes over one server; an uninterrupted `AssignVersion` is a run of the state machine |
| `CreationOrder`, `TemplateReconcile`, `Refs` | the first version of a template, the fixpoint of the template handlers, reference strings |
| `RayServices`, `WorkerGroups`, `TokenRuns` | creating a RayService from an MLService, updating an existing one, and runs of updates |
| `Accelerators`, `AcceleratorCoverage`, `AcceleratorLists` | accelerator types by product name, and the string a worker group gets for them |
| `ClusterMutator`, `ResourceLimits`, `Pods` | the RayCluster admission mutator, and the autoscaling validator behind it |
| `PvcReconcile` | the three loops that create and grow volumes |
| `VersionProgress`, `VersionWork` | how versions get their numbers when nothing fails, and how often their handlers write at all |
| `ConditionRecords`, `Conditions` | recording a condition on a cached object and in the store |
| `Settings`, `RoleBindings` | server settings, the role-binding index |
| `DefaultQueue`, `DefaultQueueRuns` | the default queue action, alone and interleaved with others |

Code that changes state is a class or a method over an array; its contract ties the whole new
state to a specification function, and the lemmas about that function say what the
state means. `Weather` values and the boolean parameters `up`, `metaUp`, `statusUp` and so on
say which calls to the server fail. Clocks, decoding and lookups outside these
modules are parameters.

## What the proofs show about the code

- Version numbers of a template are distinct as long as `AssignVersion` calls on it do not
  interleave, over crashes, restarts, deletions, conflicts and stale copies
  (`SerializedRunsNeverReuseNumbers`). The counter is read outside the mutex, so interleaved calls can hand
  out one number twice (`InterleavedCallsCollide`). As long as no version is deleted they do so exactly
  when a status write is accepted while another call still has to increment, or after the counter has moved,
  over crashes and restarts as well (`DistinctIffEveryWriteClean`). With deletions this is still the only
  way to a collision (`CleanWritesKeepDistinct`), but a deletion can end one (`CleanIsNotNecessary`).
- `AssignVersion` writes the status with the resource version from before its metadata
  write. The first call on a version without label or owner therefore always ends in a conflict, and the second
  one assigns the number (`SecondCallAssigns`, `AssignSucceedsIff`).
- An MLService without worker groups gets a RayService that the update path cannot index
  (`CreatedIsUpdatableIff`), and two worker groups with one name make the next reconcile overwrite the first
  with the second (`SharedNameIsOverwritten`).
- The accelerator string follows the order in which Go ranges over the map. With distinct group names a
  fresh RayService is sure to stay unchanged exactly when every group asks for one accelerator type
  with one count (`DistinctAlwaysQuietIff`); a group with one T4 and two V100 may be updated again
  (`TwoTypesMayUpdate`). Under one order every RayService is settled after two
  reconciles (`ThirdReconcileWritesNothing`).
- The condition of an MLService is set on the cached object before it is written, so a retry takes a failed
  write for done (`FailedRecordIsLost`). Retried alone, the record ends up stored exactly when the first write
  arrived or it was stored before (`RetriesStoreIff`); over any run object and store agree exactly when the last change
  reached the server or wanted what was stored (`RunAgreesIff`).
- Two actions that choose a default queue at the same time can both succeed and leave two defaults
  (`TwoActionsTwoDefaults`), exactly when a queue became default between list and last write of
  another action (`AtMostOneIff`).
- The role-binding index takes bindings of a role such as `cluster-admin.User` for bindings of `cluster-admin`;
  `IndexIsScanIff` says exactly when it is right, and `ShadowingRoleFools` shows the user who is never bound.
- Choosing the current default queue again ends in a conflict and leaves no default
  (`ChoosingDefaultAgainClearsIt`).
- Switching GCS fault tolerance off is refused only when the annotation is present with another
  value on a cluster without a RayService owner. Dropping the annotation is accepted (`DroppingSwitchesOff`),
  and so is adding such an owner in the same update (`OwnerSwitchesOff`); `GcsStaysOnIff` is the exact condition.
  Switching it on can turn a valid cluster without worker groups into an invalid one (`MutatedPassesIff`).
- `Set` on a setting leaves the fallback map as it was, so the sources agree afterwards exactly when
  the effective value did not move (`SourcesAgreeAfterSetIff`, `ReplacedValueGoesStale`).
- Exactly three accelerator names are never returned, because an earlier name is part of them
  (`ReturnedUnlessHidden`).
- The version order puts the newest creation time first, although the name of the function
  that uses it speaks of the first version.

## Model

| member | source | states |
|---|---|---|
| `VersionRuns.SerializedRunsNeverReuseNumbers` | pkg/controller/modeltemplate/template_controller.go:62-235 | over every run in which the calls on a template do not interleave and it is not removed, no two live assigned versions share a number, and between calls the counter is at least every live number; crash and restart, deletion, conflict and stale reads may happen at any step |
| `VersionRuns.ReachableNumbersAreOrdered` | pkg/controller/modeltemplate/template_controller.go:62-235 | the same for every state reachable from an empty cluster, with no assumption about the state |
| `VersionRuns.NumberAndConfigAreFinal` | pkg/controller/modeltemplate/templateversion_controller.go:42-93 | under any interleaving of the three writers on stale copies, an assigned number and a generated config of a surviving version never change |
| `VersionRuns.CounterCountsAssignments` | pkg/controller/modeltemplate/template_controller.go:185-235 | however calls interleave, between them the counter is its start value plus the number of successful assignments and bounds every number handed out |
| `VersionRuns.RestartCovers` | pkg/controller/modeltemplate/template_controller.go:62-81 | whatever a crash lost, the counter rebuilt at start-up covers every stored number |
| `VersionCollisions.DistinctIffEveryWriteClean` | pkg/controller/modeltemplate/template_controller.go:62-81 | in every interleaved run that keeps the template and its versions, crashes and restarts included, the numbers end up distinct if and only if every accepted status write found the counter as read and no increment pending |
| `VersionCollisions.CleanWritesKeepDistinct` | pkg/controller/modeltemplate/template_controller.go:185-235 | with deletion of versions allowed as well, clean writes still keep the numbers distinct, and the counter covers them between calls |
| `VersionCollisions.CleanIsNotNecessary` | pkg/controller/modeltemplate/template_controller.go:220-229 | with deletion they are not necessary: from every quiet state with two labelled unassigned versions a run with an unclean write ends distinct |
| `VersionCollisions.InterleavedCallsCollide` | pkg/controller/modeltemplate/template_controller.go:220-229 | from every quiet state with two labelled unassigned versions of a template, there is a failure-free run of two calls that gives them one number |
| `VersionInvariants.StepKeepsWellFormed` | pkg/controller/modeltemplate/template_controller.go:185-235 | every step keeps that cached copies were once stored, that a resource version identifies its value, and that calls in flight hold a copy without a number |
| `ApiStore.UpdateMeans` | pkg/apis/ml.oneblock.ai/v1/model_template_types.go:20-20 | a metadata write is accepted exactly from a current copy, leaves the status alone, and changes nothing when refused |
| `ApiStore.CreateMeans` | pkg/apis/ml.oneblock.ai/v1/model_template_types.go:20-20 | a name can be taken once, and a refused creation changes nothing |
| `ApiStore.UpdateStatusMeans` | pkg/apis/ml.oneblock.ai/v1/model_template_types.go:20-20 | a status write is accepted exactly from a current copy and leaves the metadata alone |
| `VersionInvariants.StepFreezes` | pkg/controller/modeltemplate/templateversion_controller.go:42-93 | no single step on a stale copy undoes an assignment or a configuration |
| `VersionInvariants.StepNumbers` | pkg/controller/modeltemplate/template_controller.go:220-226 | the numbers of a template change only by an accepted status write, which adds one entry, and by deletion of a version |
| `VersionInvariants.StepPending` | pkg/controller/modeltemplate/template_controller.go:220-229 | counter plus pending increments moves only with accepted status writes: each makes a call pending, each increment settles one |
| `VersionInvariants.HandlersMayRun` | pkg/controller/modeltemplate/templateversion_controller.go:42-93 | the run theorems cover both handlers on every copy a cache may return |
| `VersionInvariants.UsersMayWrite` | pkg/controller/modeltemplate/template_controller.go:62-235 | they cover users who create and delete at any time and edit everything but the template name |
| `VersionInvariants.CrashMayHappen` | pkg/controller/modeltemplate/template_controller.go:62-81 | they cover a crash at any time, which loses all calls and counters and nothing else |
| `VersionInvariants.TemplateMayGo` | pkg/controller/modeltemplate/template_controller.go:153-164 | they cover removal of a template at any time, which resets its counter and no other |
| `TemplateHandlers.TemplateHandler.constructor` | pkg/controller/modeltemplate/template_controller.go:32-60 | a new handler starts with the counters of the listed versions |
| `TemplateHandlers.TemplateHandler.InitLatestVersionMap` | pkg/controller/modeltemplate/template_controller.go:62-81 | the loop leaves the scan of the list, which `ScanIsMaximum` characterises |
| `ModelVersions.ScanIsMaximum` | pkg/controller/modeltemplate/template_controller.go:69-78 | for every list each template key ends at the maximum number of its assigned versions, and has an entry if and only if one of them is positive |
| `ModelVersions.ScanIgnoresOrder` | pkg/controller/modeltemplate/template_controller.go:69-78 | lists with the same versions in any order and multiplicity give the same counters |
| `ModelVersions.LabelAndOwnMeans` | pkg/controller/modeltemplate/template_controller.go:198-217 | the template label is set, other labels stay, an owner is added only to a version without one |
| `ModelVersions.ConfiguredStatusMeans` | pkg/controller/modeltemplate/templateversion_controller.go:81-88 | a generated config is stored and marked, a failure recorded with its message, the number stays |
| `TemplateHandlers.TemplateHandler.AssignVersion` | pkg/controller/modeltemplate/template_controller.go:185-235 | store, counters and error after the call, over every error path |
| `TemplateHandlers.AssignSucceedsIff` | pkg/controller/modeltemplate/template_controller.go:186-229 | a call hands out counter+1 if and only if the copy is current, already carries label and owner, and the server is up; a failing call moves neither the counter nor any status |
| `TemplateHandlers.SecondCallAssigns` | pkg/controller/modeltemplate/template_controller.go:198-225 | a new version always needs a second call: the first labels it and ends in a conflict, the second succeeds |
| `VersionProgress.AllGetNumbers` | pkg/controller/modeltemplate/template_controller.go:185-235 | any unassigned versions of one template, retried one after another without failures, get exactly the numbers that follow the counter in this order; label and owner are added, nothing else changes, other counters stay |
| `TemplateHandlers.AssignIsARun` | pkg/controller/modeltemplate/template_controller.go:185-235 | on every cached copy, with or without the template, the method's result is that of a legal run of its own steps only, so the run theorems hold for it |
| `TemplateHandlers.AssignSkips` | pkg/controller/modeltemplate/template_controller.go:187-194 | a deleted or numbered version and a missing template leave store and counters alone, and only the last is an error |
| `TemplateHandlers.TemplateHandler.GetFirstTemplateVersion` | pkg/controller/modeltemplate/template_controller.go:133-151 | the returned version is assigned and no assigned version is before it; none is returned only if none is assigned |
| `CreationOrder.LessIsStrictTotalOrder` | pkg/controller/modeltemplate/template_controller.go:237-247 | irreflexive, asymmetric, transitive, and total on versions with different names |
| `CreationOrder.FirstAssignedIgnoresOrder` | pkg/controller/modeltemplate/template_controller.go:133-151 | two choices of a least assigned version agree when the lists hold the same versions in any order |
| `CreationOrder.FirstAssignedIsLeast` | pkg/controller/modeltemplate/template_controller.go:144-150 | sorting and taking the first assigned version yields a least assigned version |
| `CreationOrder.FirstAssignedIsNewest` | pkg/controller/modeltemplate/template_controller.go:144-150 | no assigned version is newer than the chosen one, and none created at the same time has a lesser name |
| `CreationOrder.StrLessIff` | pkg/controller/modeltemplate/template_controller.go:243-243 | names are compared lexicographically |
| `CreationOrder.SortSorts` | pkg/controller/modeltemplate/template_controller.go:144-144 | the sorted list is a permutation in the order of `Less` |
| `TemplateHandlers.TemplateHandler.SetDefaultVersion` | pkg/controller/modeltemplate/template_controller.go:83-131 | template store and error after the call, on a possibly stale copy; versions are untouched |
| `TemplateHandlers.TemplateHandler.SyncLatestVersion` | pkg/controller/modeltemplate/template_controller.go:166-183 | template store and error after the call, on a possibly stale copy; versions are untouched |
| `TemplateHandlers.TemplateHandler.DeleteLatestVersion` | pkg/controller/modeltemplate/template_controller.go:153-164 | exactly the counter of this template goes |
| `TemplateReconcile.QuietIffInSync` | pkg/controller/modeltemplate/template_controller.go:83-183 | both handlers stop writing if and only if the latest version is the counter and the default version is that of the resolved reference, its failure is on record, or no version is assigned yet |
| `TemplateReconcile.TwoRoundsReachSync` | pkg/controller/modeltemplate/template_controller.go:83-183 | two reconciles reach that fixpoint from every template, and a third changes nothing |
| `TemplateReconcile.TwoRoundsChooseFirst` | pkg/controller/modeltemplate/template_controller.go:83-151 | from an unset default, two reconciles leave reference and number of a least assigned version, read back through the reference; without an assigned version the default stays unset |
| `TemplateReconcile.SetDefaultChooses` | pkg/controller/modeltemplate/template_controller.go:91-109 | without a default, the first version is taken over unless it is marked as not assigned, which is an error |
| `TemplateReconcile.SetDefaultReports` | pkg/controller/modeltemplate/template_controller.go:110-130 | with a default, a missing version is recorded and only afterwards reported, an unassigned one is an error, else number and condition are taken over |
| `TemplateReconcile.FailuresAreReported` | pkg/controller/modeltemplate/template_controller.go:83-183 | a write that is refused or does not arrive changes nothing and is reported with its reason |
| `TemplateReconcile.TryDecreasesWork` | pkg/controller/modeltemplate/template_controller.go:83-183 | every effective write, on copies of any age, lowers the measure of unset default, unsettled status and stale latest number |
| `TemplateReconcile.AtMostThreeWrites` | pkg/controller/modeltemplate/template_controller.go:83-183 | any run of attempts with conflicts and failures writes at most three times |
| `TemplateHandlers.TemplateVersionHandler.OnChange` | pkg/controller/modeltemplate/templateversion_controller.go:42-69 | at most one metadata write, none when label and owner are there; its place among the other writers is `NumberAndConfigAreFinal` |
| `TemplateHandlers.TemplateVersionHandler.ConfigModelDeployment` | pkg/controller/modeltemplate/templateversion_controller.go:71-93 | at most one status write, none once configured or when nothing changes |
| `VersionWork.StepWorks` | pkg/controller/modeltemplate/template_controller.go:185-235 | every effective write of the three version handlers, on copies of any age, lowers the measure of label and owner, number, and configuration of one version |
| `VersionWork.AtMostThreeWritesEach` | pkg/controller/modeltemplate/templateversion_controller.go:42-93 | over every run of the three handlers with crashes, conflicts and stale copies there are at most three effective writes for each version |
| `VersionWork.QuietIffNoWork` | pkg/controller/modeltemplate/templateversion_controller.go:42-93 | none of the three handlers writes if and only if the version is being deleted or has label, owner and number and its configuration is settled |
| `VersionWork.ConfiguredIsGenerated` | pkg/controller/modeltemplate/templateversion_controller.go:71-93 | over every run of the handlers a version that becomes configured has exactly the config that is generated for it |
| `Refs.ParseUndoesNewRef` | pkg/utils/ref.go:10-23 | namespace and name survive if and only if the part before the first slash is free of slashes |
| `Refs.NewRefUndoesParse` | pkg/utils/ref.go:10-23 | the other round trip holds if and only if the reference does not start with a slash |
| `Refs.DistinctTemplatesHaveDistinctRefs` | pkg/utils/ref.go:18-23 | different templates never share a counter key |
| `RayServices.GetRayClusterSpecConfig` | pkg/controller/mlservice/cluster_util.go:21-43 | head, image and worker groups of the created spec, in the order of the configuration |
| `RayServices.CreatedSpecHolds` | pkg/controller/mlservice/cluster_util.go:21-43 | the image of the service, or else the default, is on the head and in every worker group |
| `RayServices.UpdatedSpecHolds` | pkg/controller/mlservice/cluster_util.go:303-307 | an update brings that image to head and first group only, and keeps the rest of the spec |
| `RayServices.CreatedIsUpdatableIff` | pkg/controller/mlservice/cluster_util.go:303-307 | the update path can index a freshly created spec if and only if there is a worker group |
| `RayServices.CreateThenUpdateIff` | pkg/controller/mlservice/ml_service_controller.go:127-157 | for every service with a worker group, shared group names included: updating a freshly created spec leaves it unchanged if and only if the image is the same and the configurations of each name, laid over each other, ask for nothing the first of them did not get |
| `RayServices.AlwaysQuietIff` | pkg/controller/mlservice/cluster_util.go:368-378 | whatever map orders Go picks on creation and update, no update follows, if and only if the image is the same, the configurations agree under any one order, and every map that is printed stands for one accelerator type with one count |
| `RayServices.DistinctAlwaysQuietIff` | pkg/controller/mlservice/cluster_util.go:368-378 | with distinct names: if and only if every group asks for one accelerator type with one count |
| `RayServices.TwoTypesMayUpdate` | pkg/controller/mlservice/cluster_util.go:371-374 | a group with one T4 and two V100 has a pair of map orders under which the reconcile after creation issues an update |
| `RayServices.SettlesUnderEveryOrderIff` | pkg/controller/mlservice/cluster_util.go:309-341 | on an existing spec, later updates change nothing under any map orders, if and only if the map that decides each group the loops reach stands for one type with one count |
| `RayServices.CreateThenUpdateChangesNothing` | pkg/controller/mlservice/ml_service_controller.go:127-157 | with distinct group names, one image and one map order, create and update agree, so no update is issued |
| `RayServices.SharedNameIsOverwritten` | pkg/controller/mlservice/cluster_util.go:309-341 | with two groups of one name the first ends with the replicas of the second |
| `RayServices.SetRayClusterConfig` | pkg/controller/mlservice/cluster_util.go:303-341 | the image reaches the head and group 0 only, then the groups are updated by name |
| `RayServices.UpdateIsStable` | pkg/controller/mlservice/cluster_util.go:303-341 | updating any existing spec twice is updating it once, whatever the group names |
| `RayServices.SecondReconcileWritesNothing` | pkg/controller/mlservice/ml_service_controller.go:117-159 | under one map order, after one reconcile that reaches the server the next writes nothing, if the RayService existed or its configurations agree |
| `RayServices.ThirdReconcileWritesNothing` | pkg/controller/mlservice/ml_service_controller.go:117-159 | under one map order, after two reconciles that reach the server nothing is left to write, whatever the names and whether the RayService existed or not |
| `RayServices.MLServiceHandler.OnChange` | pkg/controller/mlservice/ml_service_controller.go:76-160 | what is written to the store, when the condition is recorded, and which errors are reported: those recorded in the condition are dropped |
| `RayServices.ServeBringsUpToDate` | pkg/controller/mlservice/ml_service_controller.go:117-159 | with a fresh cache the server holds the created or updated spec afterwards, unless a needed write does not arrive, which changes nothing |
| `RayServices.StaleServeChangesNothing` | pkg/controller/mlservice/ml_service_controller.go:117-159 | from a stale cache a needed update ends in a conflict and creating what exists is refused; nothing changes |
| `RayServices.RecordedMeans` | pkg/controller/mlservice/ml_service_controller.go:83-148 | after a create the condition is Yes exactly when there was no RayService and the server could be reached, and there is one then; else it is No with the reason |
| `RayServices.MLServiceHandler.UpdateCondition` | pkg/controller/mlservice/ml_service_controller.go:264-282 | the object handed in shows the condition in every case; the stored one does only if that object did not show it yet and the write succeeds |
| `ConditionRecords.SuccessMeansStoredIff` | pkg/controller/mlservice/ml_service_controller.go:264-282 | in every state of object and store: no error means that the wanted condition is stored, if and only if the object does not already show it without its being stored |
| `ConditionRecords.StoredIsLastWrite` | pkg/controller/mlservice/ml_service_controller.go:264-282 | over every run of calls on one object, what is stored in the end is what the object showed after the last call that changed it and reached the server |
| `ConditionRecords.RunAgreesIff` | pkg/controller/mlservice/ml_service_controller.go:264-282 | over every such run the object shows what is stored if and only if the last call that changed it reached the server or wanted what was stored |
| `ConditionRecords.RetriesStoreIff` | pkg/controller/mlservice/ml_service_controller.go:264-282 | however often a call is retried on an object that showed what was stored, the condition ends up stored if and only if it was so before or the very first write arrived |
| `ConditionRecords.FailedRecordIsLost` | pkg/controller/mlservice/ml_service_controller.go:264-282 | after a failed write every retry of the same record reports success without writing |
| `ConditionRecords.LostWritesMayCancel` | pkg/controller/mlservice/ml_service_controller.go:264-282 | two lost writes, the second back to the old message, leave object and store equal again |
| `WorkerGroups.SetRayClusterWorkerGroupConfig` | pkg/controller/mlservice/cluster_util.go:309-341 | the nested loops, in place: every configuration updates the first group with its name |
| `WorkerGroups.UpdateFirstMatch` | pkg/controller/mlservice/cluster_util.go:311-339 | the inner loop changes the first group of the name and stops; only of that group is anything required |
| `WorkerGroups.CreatedGroupHolds` | pkg/controller/mlservice/cluster_util.go:155-245 | every field of a created group: scaling, parameters, the container with image, token and cache volume |
| `WorkerGroups.UpdatedGroupHolds` | pkg/controller/mlservice/cluster_util.go:313-336 | every field of an updated group: configured ones are taken over, other start parameters, volumes, image, mounts and further containers stay |
| `WorkerGroups.AssignConfig` | pkg/controller/mlservice/cluster_util.go:313-336 | the fields of the matching group, with start parameters merged over the existing ones; volumes, image and the other containers are kept |
| `WorkerGroups.MergeParams` | pkg/controller/mlservice/cluster_util.go:316-318 | configured parameters win, others are kept, in any map order |
| `WorkerGroups.UpdateIsOverlay` | pkg/controller/mlservice/cluster_util.go:309-341 | for all lists, shared names included: the first group of a name gets all configurations of that name laid over each other in order, every other group and the sequence of names stay |
| `WorkerGroups.UpdateIsMerge` | pkg/controller/mlservice/cluster_util.go:309-341 | with distinct names the loops equal a merge by name: every group gets exactly the configuration of its name |
| `WorkerGroups.UnnamedIsUntouched` | pkg/controller/mlservice/cluster_util.go:309-341 | a group that no configuration names is left as it is |
| `WorkerGroups.LayTwice` | pkg/controller/mlservice/cluster_util.go:313-336 | two configurations applied to one group one after the other are their overlay applied once, token entry included |
| `WorkerGroups.LaterUpdateDecides` | pkg/controller/mlservice/cluster_util.go:309-341 | of two runs of the loops with different map orders the later one decides, whatever the names |
| `WorkerGroups.ReapplyChangesNothing` | pkg/controller/mlservice/cluster_util.go:309-341 | running the loops again with the same configurations and order changes nothing, whatever the names |
| `WorkerGroups.UpdateIgnoresOrderIff` | pkg/controller/mlservice/cluster_util.go:309-341 | the outcome is independent of the map order if and only if the map that decides each group the loops reach stands for one type with one count |
| `WorkerGroups.SetWorkerGroupHFEnv` | pkg/controller/mlservice/cluster_util.go:343-366 | the token entry is appended unless the secret has one, no other entry changes; without a secret any environment is accepted and kept |
| `TokenRuns.GroupsKeepOneTokenPerSecret` | pkg/controller/mlservice/cluster_util.go:309-366 | over any run of updates from changing services, images and map orders, each group gains one token entry for each secret when it is first used for it and loses none, so no secret gets a second one |
| `TokenRuns.RunAddsTokens` | pkg/controller/mlservice/cluster_util.go:309-366 | over such a run only the updates of services that name the group, as the first of its name, touch its environment |
| `WorkerGroups.TokenRunAddsFirstUses` | pkg/controller/mlservice/cluster_util.go:343-366 | on one environment, a sequence of secrets appends one entry for the first use of each, with the key it has then |
| `WorkerGroups.TokenRunKeepsOnePerSecret` | pkg/controller/mlservice/cluster_util.go:343-366 | on one environment, no sequence of secrets gives one a second token entry |
| `AcceleratorLists.ConfigResourceAccelerators` | pkg/controller/mlservice/cluster_util.go:368-378 | the accelerator string for the enumeration of the map that was used, without trailing comma |
| `AcceleratorLists.SameStringIff` | pkg/controller/mlservice/cluster_util.go:368-378 | two enumerations print the same string if and only if they list the same items in the same order |
| `AcceleratorLists.SameItemIff` | pkg/controller/mlservice/cluster_util.go:373-373 | two items print alike if and only if type and count are the same |
| `AcceleratorLists.PrintsAlikeIff` | pkg/controller/mlservice/cluster_util.go:368-378 | the string is independent of the order of the map if and only if all its products stand for one type with one count |
| `AcceleratorLists.OneTypeIsUniform` | pkg/controller/mlservice/cluster_util.go:368-378 | a map with at most one product always is |
| `AcceleratorLists.OneTypePrints` | pkg/controller/mlservice/cluster_util.go:368-378 | the string for one product, letter by letter |
| `AcceleratorLists.DecimalIsNumeral` | pkg/controller/mlservice/cluster_util.go:373-373 | counts are printed as their decimal numerals |
| `Accelerators.FirstContainedIsFirst` | pkg/utils/accelerator_type.go:33-85 | the result is the first name of the chain that the product contains, empty if and only if it contains none |
| `Accelerators.ResultIsFixed` | pkg/utils/accelerator_type.go:33-85 | a non-empty result is part of the product and is mapped to itself |
| `Accelerators.ReturnedIff` | pkg/utils/accelerator_type.go:33-85 | in a chain of distinct names, a name is returned for some product if and only if it contains no earlier one |
| `Accelerators.HiddenIsNeverReturned` | pkg/utils/accelerator_type.go:33-85 | a name with an earlier one inside is returned for no product |
| `Accelerators.A10040gIsHidden` | pkg/utils/accelerator_type.go:78-79 | A100-40G is never returned |
| `Accelerators.A10080gIsHidden` | pkg/utils/accelerator_type.go:80-81 | A100-80G is never returned |
| `Accelerators.Mi250IsHidden` | pkg/utils/accelerator_type.go:60-61 | AMD-Instinct-MI250X-MI250 is never returned |
| `AcceleratorCoverage.ReturnedUnlessHidden` | pkg/utils/accelerator_type.go:33-85 | of the known names exactly these three are never returned, every other one is for some product |
| `PvcReconcile.PvcHandler.CreatePVCFromAnnotation` | pkg/utils/pvc_util.go:27-68 | the loop is the common pass; an annotation that does not decode writes nothing |
| `PvcReconcile.PvcHandler.CreatePVCByVolume` | pkg/utils/pvc_util.go:70-112 | the loop is the same pass |
| `PvcReconcile.RayClusterHandler.CreatePVCFromAnnotation` | pkg/controller/raycluster/pvc_util.go:15-71 | the loop is the same pass with the cluster as owner; deleted clusters and missing annotations are skipped |
| `PvcReconcile.PassReachesMaximum` | pkg/utils/pvc_util.go:27-112 | a successful pass leaves every listed volume at the maximum of its old size and all its requests; no pass shrinks a volume or touches an unlisted one |
| `PvcReconcile.LargestIsMaximum` | pkg/utils/pvc_util.go:27-112 | the size used above is an upper bound of old size and requests, and one of them |
| `PvcReconcile.SuccessMeetsClaims` | pkg/utils/pvc_util.go:27-112 | after a successful pass the storage request of every volume is at least that of each claim on it |
| `PvcReconcile.PassIsExplained` | pkg/utils/pvc_util.go:27-112 | after any pass the requests of a volume are its old ones or exactly those of a claim on it; a new volume has the given owners and everything else from its first claim |
| `PvcReconcile.IterationFailsIff` | pkg/utils/pvc_util.go:39-65 | an iteration fails exactly when the cache does, or when a write is needed and does not arrive |
| `PvcReconcile.FairPassSucceeds` | pkg/utils/pvc_util.go:27-112 | when nothing fails the pass succeeds |
| `PvcReconcile.ErrorLeavesPrefix` | pkg/utils/pvc_util.go:27-112 | a pass that fails leaves exactly what a successful pass over some proper prefix leaves |
| `PvcReconcile.SecondPassWritesNothing` | pkg/utils/pvc_util.go:27-112 | after a successful pass another one changes nothing, whatever fails during it |
| `PvcReconcile.ReconcileNeverShrinks` | pkg/controller/raycluster/pvc_util.go:36-69 | in every interleaving of iterations on stale snapshots with creations, resizes and deletions by users, no write of a loop lowers a request or removes a volume |
| `PvcReconcile.NothingIsRuledOut` | pkg/controller/raycluster/pvc_util.go:36-69 | the runs cover users who create, edit and delete at any time and loops that work on any snapshot |
| `DefaultQueue.QueueHandler.UnsetAllDefaultQueues` | pkg/api/queue/formatter.go:83-103 | the loop, with every state in between that of a prefix of the list |
| `DefaultQueue.QueueHandler.SetDefaultQueue` | pkg/api/queue/formatter.go:58-81 | queue store and error of the whole action |
| `DefaultQueue.LoopOnlyShrinks` | pkg/api/queue/formatter.go:83-103 | from one state of the loop to every later one the set of defaults only shrinks, and nothing else about any queue changes |
| `DefaultQueue.SetDefaultIsExclusive` | pkg/api/queue/formatter.go:58-103 | the action succeeds if and only if the queue exists, is not yet default and every write arrives; then it is the only default and the last write started from none; an error leaves no new default |
| `DefaultQueue.ChoosingDefaultAgainClearsIt` | pkg/api/queue/formatter.go:58-103 | choosing the current default ends in a conflict and no default |
| `DefaultQueueRuns.AtMostOneIff` | pkg/api/queue/formatter.go:58-103 | over every interleaved run of actions there is never more than one default, if and only if no last write is accepted after another queue became default since the action listed the queues |
| `DefaultQueueRuns.MarkLeavesOneIff` | pkg/api/queue/formatter.go:76-78 | whatever happened before, an accepted last write leaves at most one default, if and only if no queue became default since the action listed them |
| `DefaultQueueRuns.StepKeepsValid` | pkg/api/queue/formatter.go:58-103 | every step of every action keeps that each default older than a list is still to be cleared by the action that made the list |
| `DefaultQueueRuns.RunKeepsOthers` | pkg/api/queue/formatter.go:58-103 | over every interleaved run each queue keeps its spec and every other annotation with its value |
| `DefaultQueueRuns.TwoActionsTwoDefaults` | pkg/api/queue/formatter.go:58-103 | with no default stored, two actions on different queues that list the same state both succeed and leave two defaults |
| `DefaultQueueRuns.SetDefaultIsARun` | pkg/api/queue/formatter.go:58-103 | the uninterrupted action is such a run |
| `ClusterMutator.Create` | pkg/webhook/resources/raycluster/mutator.go:33-63 | applying the emitted patch gives the mutated cluster; the patch is empty exactly for a cluster owned by a RayService |
| `ClusterMutator.Update` | pkg/webhook/resources/raycluster/mutator.go:65-104 | exactly when switching GCS off is refused, what the patch makes of the cluster otherwise, and when GCS stays on |
| `ClusterMutator.GcsStaysOnIff` | pkg/webhook/resources/raycluster/mutator.go:76-82 | an accepted update of a cluster with GCS keeps it on if and only if it keeps the annotation and, once a RayService owns the cluster, its value |
| `ClusterMutator.DroppingSwitchesOff` | pkg/webhook/resources/raycluster/mutator.go:76-82 | removing the annotation is accepted and switches GCS off |
| `ClusterMutator.OwnerSwitchesOff` | pkg/webhook/resources/raycluster/mutator.go:70-82 | setting it to "false" while adding an owner of kind RayService is accepted and switches GCS off, without the owner it is refused |
| `ClusterMutator.PatchHeadGroup` | pkg/webhook/resources/raycluster/mutator.go:106-140 | start parameters, ports, limits, stop hook and environment of the first head container; other containers are kept |
| `ClusterMutator.PatchWorkerGroups` | pkg/webhook/resources/raycluster/mutator.go:242-259 | every worker group is patched in place, independently of the others |
| `ClusterMutator.GetHeadGroupEnv` | pkg/webhook/resources/raycluster/mutator.go:210-231 | the nested loops merge the Redis entries under the names the user has not set |
| `ClusterMutator.PatchWorkerEnv` | pkg/webhook/resources/raycluster/mutator.go:269-295 | the timeout entry is appended if and only if its name is free |
| `ClusterMutator.IsOwnedByRayService` | pkg/webhook/resources/raycluster/mutator.go:311-321 | true exactly when some owner is a RayService |
| `ClusterMutator.MergeAppendsMissing` | pkg/webhook/resources/raycluster/mutator.go:210-231 | user entries keep value, number and order; exactly the missing defaults follow |
| `ClusterMutator.HeadEnvIsKept` | pkg/webhook/resources/raycluster/mutator.go:106-121 | the same about the head of any mutated cluster, with or without workers |
| `ClusterMutator.WorkerEnvIsKept` | pkg/webhook/resources/raycluster/mutator.go:242-259 | the same about every worker group and the reconnect timeout |
| `ClusterMutator.HeadFindsRedis` | pkg/controller/raycluster/redis.go:70-88 | with GCS the head gets address and password of Redis unless the user set these entries |
| `ClusterMutator.WorkersReconnect` | pkg/webhook/resources/raycluster/mutator.go:269-295 | every worker gets the reconnect timeout unless the user set it |
| `ClusterMutator.MutationMeans` | pkg/webhook/resources/raycluster/mutator.go:33-140 | field by field: user start parameters outside the enforced ones stay, the enforced ones have their values; ports and hook of the user stay, else they get the defaults; limits as in `PatchCoversRequests`; other containers, other annotations and the rest stay; an owned cluster stays as it is |
| `ClusterMutator.MutationIsIdempotent` | pkg/webhook/resources/raycluster/mutator.go:33-104 | mutating twice is mutating once, for every cluster |
| `ClusterMutator.MutatedPassesIff` | pkg/webhook/resources/raycluster/validator.go:55-63 | which clusters pass the validator after the mutator, and that passing survives a second mutation |
| `ResourceLimits.PatchResourceLimits` | pkg/webhook/resources/raycluster/mutator.go:167-196 | the limits the method leaves, which `PatchCoversRequests` characterises |
| `ResourceLimits.WholeIsLeastUpper` | pkg/webhook/resources/raycluster/mutator.go:175-186 | a rebuilt limit is the least whole amount not below its nonnegative source |
| `ResourceLimits.PatchCoversRequests` | pkg/webhook/resources/raycluster/mutator.go:167-196 | limits with both CPU and memory stay; otherwise each of the two is the limit, or else the request, rounded to whole units, and the other resources are limited exactly as requested, extra limits dropped |
| `ResourceLimits.RequestFits` | pkg/webhook/resources/raycluster/mutator.go:175-186 | a limit taken from a request is not below it and less than one unit above |
| `ResourceLimits.PatchIsIdempotent` | pkg/webhook/resources/raycluster/mutator.go:167-196 | patching twice is patching once, over fractional and negative amounts as well |
| `Settings.Provider.Get` | pkg/controller/setting/setting.go:33-50 | environment, cache, client, fallback, in this order |
| `Settings.EnvKeyIsCapitals` | pkg/settings/settings.go:133-135 | which environment variable is read for a setting, character by character |
| `Settings.VariableCounts` | pkg/controller/setting/setting.go:34-37 | a variable counts exactly when it is set and not empty |
| `Settings.FirstSourceDecides` | pkg/controller/setting/setting.go:33-50 | the first source that knows the setting decides, an empty value stands for the default, and an unknown setting is empty |
| `Settings.Provider.Set` | pkg/controller/setting/setting.go:52-65 | exactly when a value is stored, that its default is kept, that no other setting changes, and when the sources still agree afterwards |
| `Settings.Provider.SetIfUnset` | pkg/controller/setting/setting.go:67-80 | a stored value is never replaced |
| `Settings.Provider.Register` | pkg/controller/setting/setting.go:85-133 | one round of registration: the setting is in sync, remembered, and nothing is written when it was in sync already |
| `Settings.Provider.SetAll` | pkg/controller/setting/setting.go:82-138 | success registers and remembers every setting, an error leaves each one registered or as it was and keeps the fallback map, others are untouched, and a second call writes nothing |
| `Settings.EverySourceKeepsThePromise` | pkg/controller/setting/setting.go:33-50 | after registration every source answers environment, else user value, else registered default; user values survive |
| `Settings.SyncIsStable` | pkg/controller/setting/setting.go:82-138 | a registered setting stays in sync, so registering again writes nothing |
| `Settings.SourcesAgreeAfterSetIff` | pkg/controller/setting/setting.go:52-65 | after a successful Set on a remembered setting, cache, client and fallback map agree if and only if the value that was set leaves the effective value as it was |
| `Settings.ReplacedValueGoesStale` | pkg/controller/setting/setting.go:40-43 | replacing the user value "debug" by "trace" makes cache and client answer the new value and the fallback map the old one |
| `Settings.Registry.NewSetting` | pkg/settings/settings.go:124-131 | the setting is registered under its name |
| `Settings.Registry.Set` | pkg/settings/settings.go:81-92 | before there is a provider the default of a registered setting moves, afterwards the stored value does |
| `Settings.Registry.Get` | pkg/settings/settings.go:94-100 | the registered default before there is a provider, the provider's answer afterwards |
| `Settings.Registry.SetProvider` | pkg/settings/settings.go:116-122 | on success every registered setting has the promised answer from every source; on an error the provider is not replaced |
| `RoleBindings.IndexKeys` | pkg/indexeres/indexer.go:29-35 | as many empty keys as subjects, then the key of each subject |
| `RoleBindings.CrbKeyIsInjective` | pkg/indexeres/indexer.go:37-39 | keys determine role and subject when role and kind contain no dot |
| `RoleBindings.RolesCollideIff` | pkg/indexeres/indexer.go:37-39 | a dot-free role and another role have a key in common if and only if the other continues it like one of its keys |
| `RoleBindings.IndexIsScan` | pkg/indexeres/indexer.go:29-39 | the lookup returns exactly the bindings a scan finds, despite the empty keys, as long as no stored role shadows the one looked up |
| `RoleBindings.IndexIsScanIff` | pkg/indexeres/indexer.go:29-39 | the lookup is right about every subject of a kind if and only if no stored role with subjects shadows the one looked up |
| `RoleBindings.UserHandler.EnsureClusterBinding` | pkg/controller/user/user_handler.go:62-103 | a binding is created exactly when the index has none |
| `RoleBindings.UserHandler.OnChanged` | pkg/controller/user/user_handler.go:45-60 | calling again creates nothing, in every state; after a successful call the user is bound if and only if that was so before or the index had no entry, and always when nothing shadows the role |
| `RoleBindings.RolesAreEarned` | pkg/controller/user/user_handler.go:45-60 | over any sequence of calls nobody becomes cluster admin without a call in which the user was an administrator, nor viewer without one in which not, and no other role is given |
| `RoleBindings.AdminIsBound` | pkg/controller/user/user_handler.go:45-60 | one call that reaches the server binds an administrator to cluster-admin unless another role shadows it |
| `RoleBindings.ShadowingRoleFools` | pkg/controller/user/user_handler.go:68-79 | a binding of a role `cluster-admin.User` makes the index claim a binding of `cluster-admin` for a user who has none |

## Left out

- The API server, the wrangler condition helpers and `sort.Sort` are not part of this model; `ApiStore`, `SetTrue`/`SetError` and `SortByCreation` state what the handlers rely on. The in-place sort of the cached list is modelled on values.
- A call that returns an error although the server applied the write: an error is taken to mean that nothing was written.
- VersionRuns.SerializedRunsNeverReuseNumbers: claimed while the template is not removed, because removal drops the counter and a template created again under the name starts from zero while old versions may survive.
- VersionProtocol: the template name of a version is taken as fixed after creation (enhancements/20240222-model-serving.md:172); all other metadata may be edited. Cached copies may be arbitrarily old, the list at start-up is current.
- TemplateReconcile.AtMostThreeWrites: observed generation and condition timestamps are not modelled; they ride along with the writes counted here.
- RayServices.CreateThenUpdateIff: stated for services with a worker group, because the update path panics without one (`CreatedIsUpdatableIff`).
- RayServices.MLServiceHandler.OnChange: fetching the model version, the config map, the secret copy and building the head group and its volumes are folded into `Inputs` and `headRest`; the volume claims it lists are `PvcReconcile`.
- WorkerGroups.SetWorkerGroupHFEnv: a token entry that does not come from a secret makes the code dereference nil when it is read; the contract requires that none is read, which is asked only with a secret and only up to the entry of that secret.
- RayServices.AlwaysQuietIff: an order is a function of the map, so two groups with equal maps are printed alike within one pass.
- RayServices.MLServiceHandler.UpdateCondition: how a later watch event replaces the cached object is not modelled.
- WorkerGroups.AssignConfig: nil and empty collections are equal, a nil map of start parameters in an existing group (on which the code panics) is not modelled, nor that a created group shares the configuration's map.
- ClusterMutator.Create: patch operations are applied as plain replacement of a field. That the target of `replace` must exist (section 4.3 of RFC 6902) is not modelled. Every pod template of a cluster that is not owned by a RayService is required to have a container, as the code indexes it.
- ResourceLimits.PatchResourceLimits: quantities are integers in sub-units without overflow, and formatting is left out.
- Settings.Registry.Get: `GetInt`, `IsRelease` and the injected defaults only add easy members. Go's `ToUpper` is modelled on ASCII letters.
- DefaultQueue.QueueHandler.UnsetAllDefaultQueues: an error of the cache listing, which writes nothing, is left out; the results assume that the list is current when it is made. `DefaultQueueRuns` knows other actions, but no other writers.
- VersionWork.AtMostThreeWritesEach: users do not write during the run, and building the config of a version always comes to the same.
- RoleBindings.IndexIsScanIff: the kinds of stored subjects are taken to be dot-free; Kubernetes admits `User`, `Group` and `ServiceAccount` only.
- RoleBindings.UserHandler.EnsureClusterBinding: labels and owner of the created binding, an error of the index lookup and a deleted user are left out.
- PvcReconcile.PvcHandler.CreatePVCFromAnnotation: decoding the annotation is a parameter, everything in a claim but owners and requests is one opaque value.
- The validator's check of the volume annotation, notebooks, datasets, authentication, GPU policy, leader election, Helm charts and generated code.
