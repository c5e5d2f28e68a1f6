# TApp controller: a verified model

TApp is a Kubernetes workload whose controller keeps a set of numbered instances (pods) in the state an
app's specification asks for: it creates missing pods, deletes pods that are finished or beyond the replica
count, and moves pods to a new template in place or by recreation, without taking more pods down at once
than two disruption budgets allow. This project models that controller in Dafny and proves what its
reconcile loop keeps, sync after sync.

The model follows the program's own form. The loops of the controller are methods with invariants, the app,
the template, the pod and the pod store that the code writes in place are classes, and each method is proved
against a specification function. The theorems are about those functions. Ranging over a Go map is an
arbitrary choice in the methods and an arbitrary visiting order in the specification, so every result below
holds for all iteration orders. Goroutines are interleaved at the granularity of their API calls.

| file | what it holds |
|---|---|
| `Decimal.dfy` | printing and parsing of instance ids |
| `Model.dfy` | apps, templates, pods, and the read-only predicates |
| `Templates.dfy` | the two template hashes, collection of unused templates |
| `Instances.dfy` | pods built from templates, the in-place merge |
| `Syncer.dfy` | carrying out a plan against the pod store, goroutine by goroutine |
| `Admission.dfy` | validation of the disruption budgets, and the values the planner reads from them |
| `Readiness.dfy` | the readiness gate of in-place updates |
| `Planner.dfy` | desired sets, actions per pod, and the budget-spending transformation as a specification |
| `Transformer.dfy` | the same transformation and `instanceToSync` as loops, proved to compute the specification |
| `Selection.dfy` | what each phase of the transformation does, for every order |
| `Guarantees.dfy` | whole plans: counts, selection, floor, progress, partition, confluence |
| `Status.dfy` | instance statuses, app status, counters, the status write |
| `Cluster.dfy` | syncs and environment steps over a pod store; the availability floor of whole runs |
| `Plans.dfy` | plans read in terms of spec, pods and nodes, and what a full sync leaves of each pod |
| `Controller.dfy` | one sync end to end as a method, proved to be a step of the state machine |
| `Finished.dfy` | finished instances and apps over whole runs; the early exit |
| `Convergence.dfy` | the work left, what a settled round does to it, and when a run comes to rest |
| `Witnesses.dfy` | concrete inputs at which an expected property fails |

## Main results

- Availability over whole runs (`Cluster.AvailabilityFloor`, `Cluster.FixedSpecFloor`): whatever the map
  orders, listings and node caches, no sync takes the number of available desired pods below the least of
  where it started and what the two budgets leave.
- Convergence, exactly (`Convergence.Converges`): two per stale pod, one per missing pod and one per completed
  or excess pod measures the work left. `Convergence.RoundAccount` says what every round does to it, and a
  potential on top of it strictly decreases from any recorded statuses, with either setting of the option to
  keep pods until the app has finished, until every plan is empty. The only start that does not get there is
  an app that a sync leaves early although an instance is missing.
- Exact plans (`Plans.PlanListsExactly`, `Plans.BudgetsAreSpent`): which instance is in which list, how many
  changes the two budgets let through and which of the rolling ones, told from spec, pods and nodes alone.
- The sync as a whole (`Controller.SyncTApp`): the imperative sync, with its goroutines and map orders, is a
  step of the state machine that all results about runs speak of.
- Sound plans that are carried out confluently (`Guarantees.SoundPartition`,
  `Guarantees.PlannedSyncIsConfluent`).
- Finished stays finished (`Finished.FinishedAppStaysFinished`, `Finished.FinishedAppPodsLeave`), a finished
  instance does so exactly until a sync creates it again (`Finished.FinishedInstanceStaysFinished`,
  `Finished.OverPlan`), and the early exit of a sync is sound exactly under a stated condition
  (`Finished.EarlyExitIsSound`).
- Statuses stabilise after two updates (`Status.StatusStabilises`), and after one exactly under a stated
  condition (`Status.OneUpdateSuffices`).
- Template collection changes no plan (`Guarantees.CollectionKeepsPlans`), hashing is idempotent exactly
  under a stated condition (`Templates.UpdateTemplateHashIdempotent`), and an in-place update agrees with
  recreation (`Instances.InPlaceUpdateAgreesWithRecreation`).

## Where the code does less than one might expect

Each point has an exact condition and, in `Witnesses.dfy` unless another place is named, an input.

- Hashing twice is not hashing once on an inline template with a nil label map, if the hash tells nil from
  empty: the first pass creates the label map and thereby changes what the second pass hashes. Pool
  templates with a nil label map are never labelled, because the loop over the pool works on copies
  (`Templates.UpdateTemplateHashIdempotent`, `NilLabelsAreHashedTwice`).
- The uniq-hash label is refreshed only when the template-hash label was stale, so a template that arrives
  with a right template hash and a wrong uniq hash keeps the wrong one (`Templates.HashTemplateLabels`,
  `WrongUniqLabelStays`).
- A single status update over unchanged pods need not be final: a dying pod whose instance was recorded as
  failed is read by its phase once and as killing the next time (`Status.OneUpdateSuffices`,
  `Status.OneUpdateIsNotEnough`).
- Closing and opening the readiness gate does not restore a Ready condition that was Unknown, nor one that
  the gate itself had turned False (`Readiness.GateRoundTrip`, `UnknownReadyIsLost`, `OwnedFalseIsLost`).
- A pod about to be deleted or updated is taken down first, except one that is ready although its gate is
  closed already: the write is skipped (`Readiness.SelectedIsDown`, `Plans.UpdatedIsDown`,
  `ClosedGateIsSkipped`). The controller itself never makes such a pod (`Plans.SyncKeepsHonest`).
- With pods kept until the app has finished, a failed or succeeded instance whose pod is gone is created
  again while the app is still running, which is what the record of finished instances is there to prevent
  (`Finished.OverPlan`, `FinishedInstanceIsCreatedAgain`).
- An app that is recorded as finished, with an instance recorded as killed that the spec no longer kills,
  exits early although the planner would create a pod, and does so for ever (`Finished.EarlyExitIsSound`,
  `Convergence.Converges`, `EarlyExitMissesACreate`).
- With an instance recorded as failed or succeeded while a living pod of it exists, a settled round need not
  decrease the measure: the pod is deleted as excess and the instance then counts as missing
  (`Convergence.StrictRoundIff`, `RoundWithoutProgress`).
- Admission rejects budgets the planner could read, such as "50" (`Admission.AcceptedIffUsefulBudget`,
  `Admission.RejectedButUseful`).
- In-place updates do not carry over init-container images (`Instances.InPlaceUpdateAgreesWithRecreation`,
  `InitImageIsNotMerged`).

## Model

| member | source | states |
|---|---|---|
| Decimal.ParsePrint | pkg/tapp/controller.go:621-624 | an ordinal printed into an instance id parses back to itself, for every ordinal within 64 bits |
| Decimal.PrintInjective | pkg/tapp/controller.go:621-624 | different ordinals print to different ids |
| Decimal.SpelledParses | pkg/tapp/controller.go:776-788 | a sign or none, any zeros and the digits of a number parse to that number, clamped to 64 bits |
| Decimal.ParsesExactlySpelled | pkg/tapp/controller.go:776-788 | no other string parses: the ids without a syntax error are exactly those spelled that way |
| Model.ScanIsUpdating | pkg/tapp/controller.go:1260-1285 | the scan answers true exactly when the annotation is set and some container status names a container whose image differs (up to registry prefix and latest tag) or has no image id |
| Model.UpdatingMeans | pkg/tapp/controller.go:1260-1285 | a pod counts as updating exactly when it is annotated and some container status shows neither the image of the last container of that name, in one of the four reported forms, nor an image id |
| Model.MakePodMap | pkg/tapp/controller.go:666-677 | the loop builds the map that PodMapHoldsLast characterises |
| Model.PodMapHoldsLast | pkg/tapp/controller.go:666-677 | an id is in the map exactly when some pod carries its label, and the map then holds the last such pod of the list |
| Model.AvailableMeans | pkg/tapp/controller.go:693-711 | available means alive, running, first Ready condition present and True, and no update under way |
| Model.ReadyMeans | pkg/tapp/controller.go:1031-1038 | for the status a pod is ready also when it has no Ready condition |
| Model.TemplateMeans | pkg/tapp/tapp_utils.go:54-64 | own name or default name; "default" is the inline template, every other name is looked up in the pool; the rolling template is compared by name |
| Model.MigrateMeans | pkg/tapp/controller.go:631-664 | when a completed pod is started again, by the migration setting, by whether anything ran on its node, and by restart policy and phase |
| Admission.ValidatePositiveIntOrPercent | pkg/admission/validation.go:69-82 | no error exactly for a non-negative integer or a digit string with a percent sign; errors name the field |
| Admission.IsNotMoreThan100Percent | pkg/admission/validation.go:85-93 | no error exactly when the value is no percentage or at most one hundred |
| Admission.IsNotZero | pkg/admission/validation.go:96-103 | no error exactly when the percentage, or for a non-percentage the integer field, is not zero |
| Admission.ValidateIntOrPercent | pkg/admission/validation.go:60-66 | accepts precisely integers from 1 up and 1% to 100%, over all digit strings, out-of-range ones included |
| Admission.AcceptedMeans | pkg/admission/validation.go:60-114 | the accepted values written out: integers from 1 up, and 1 to 100 with leading zeros at most before a percent sign |
| Admission.ValidateUpdateStrategy | pkg/admission/validation.go:48-58 | accepts exactly when each budget that is present is accepted |
| Admission.AcceptedIffUsefulBudget | pkg/admission/validation.go:60-114 | a value is accepted if and only if for every desired set of size n at least 1 the planner reads a budget of at least 1 and, for a string, at most n, and a string is written as digits and a percent sign |
| Admission.RejectedButUseful | pkg/admission/validation.go:69-82 | the last clause is needed: "50" without a percent sign is rejected, although the planner would read it as 50% |
| Admission.AdmittedBudgetsArePositive | pkg/tapp/controller.go:827-882 | under an admitted strategy, defaults included, both phases read a budget of at least 1 |
| Admission.BudgetsMean | pkg/tapp/controller.go:827-882 | each phase reads its own setting: an integer as it stands, a percentage as the least share not below it, all of the set or one pod by default |
| Templates.CopyWithoutImages | pkg/hash/hash.go:117-135 | the copy is the container list with every image blanked and nothing else changed |
| Templates.GenerateUniqHash | pkg/hash/hash.go:117-135 | the uniq hash is the hash of the pod spec with main and init images blanked |
| Templates.UniqHashIgnoresImages | pkg/hash/hash.go:117-135 | two pod specs have equal uniq hashes under every hash if and only if they differ in images of main and init containers only |
| Templates.TemplateHashIgnoresHashLabels | pkg/hash/hash.go:106-115 | two templates have equal template hashes under every hash if and only if they differ in the two hash labels only |
| Templates.TemplateObject.SetTemplateHash | pkg/hash/hash.go:61-73 | reports a change exactly when the label was stale, writes that label and no other, creates a nil label map |
| Templates.TemplateObject.SetUniqHash | pkg/hash/hash.go:79-91 | reports a change exactly when the label was stale, writes that label and no other |
| Templates.TemplateObject.UpdateHash | pkg/tapp/controller.go:537-541 | the template hash is refreshed, and the uniq hash only if the template hash was stale |
| Templates.HashIgnoresItself | pkg/hash/hash.go:61-115 | on a non-nil label map, writing the two hash labels does not change the template hash |
| Templates.HashTemplateIdempotent | pkg/hash/hash.go:61-115 | hashing a template twice is hashing it once if and only if its labels are not nil or the hash does not tell nil from empty |
| Templates.HashPoolIdempotent | pkg/tapp/controller.go:545-547 | a second pass changes nothing in any template pool, nil label maps included |
| Templates.UpdateTemplateHashIdempotent | pkg/tapp/controller.go:536-548 | the pass over a whole spec is idempotent if and only if the hash cannot see the inline template's label map appear |
| Witnesses.NilLabelsAreHashedTwice | pkg/hash/hash.go:61-73 | a failing input: a template with a nil label map under a hash that sees it |
| Templates.HashTemplateLabels | pkg/tapp/controller.go:537-541 | after hashing, the template label is the hash of the template that went in, and the uniq label is so exactly when the template label was stale or the uniq label was right already |
| Witnesses.WrongUniqLabelStays | pkg/tapp/controller.go:537-541 | a failing input: a right template label next to a wrong uniq label, which stays |
| Templates.RemoveUnusedPreservesMeaning | pkg/tapp/controller.go:511-533 | after collection every instance id has the same template and the same rolling membership; exactly the templates remain that an instance names, that are the default or the rolling one, and all of them without the setting; nothing else of the spec changes; a second pass changes nothing |
| Templates.RemoveUnusedCommutesWithHash | pkg/tapp/controller.go:511-548 | collecting and then hashing equals hashing and then collecting |
| Templates.TAppObject.RemoveUnusedTemplate | pkg/tapp/controller.go:511-533 | the in-place deletion loops leave the spec that RemoveUnusedPreservesMeaning is about, and touch nothing else |
| Templates.TAppObject.RefreshTemplateHash | pkg/tapp/controller.go:536-548 | the loop over inline template and pool leaves the spec that UpdateTemplateHashIdempotent is about |
| Instances.PodObject.MergeFrom | pkg/tapp/instance.go:413-437 | images by index, labels and annotations overwritten, the special annotation kept against the template and written into the expected pod too |
| Instances.MergedContainer | pkg/tapp/instance.go:413-422 | container by container, only the image changes, and only where the template has a container |
| Instances.MergedMetadata | pkg/tapp/instance.go:423-436 | expected labels and annotations win, the port mapping of the living pod stays, everything else of the pod stays |
| Instances.MergedCountsAsUpdating | pkg/tapp/instance.go:115-120 | a pod merged with one marked for update counts as updating exactly as long as some container status shows another image than the new one, or none |
| Instances.NewPodMeans | pkg/tapp/instance.go:93-113 | a new pod is the template with name and id label put on |
| Instances.CopyInto | pkg/tapp/instance.go:423-436 | copying entry by entry in any order gives the union in which the source wins |
| Instances.HashedTemplateIsTruthful | pkg/hash/hash.go:61-91 | hashing a template with a label map and no hash label makes both labels describe it |
| Instances.InPlaceUpdateAgreesWithRecreation | pkg/tapp/instance.go:413-437 | with truthful labels and no collision on the two templates, the merged pod has the main containers and hash labels of a newly made one, the next sync sees no change, and init containers agree exactly if they agreed before |
| Witnesses.InitImageIsNotMerged | pkg/tapp/instance.go:413-422 | a failing input: templates that differ only in an init-container image have equal uniq hashes, and the merge keeps the old image |
| Syncer.AddReadinessGate | pkg/tapp/instance.go:228-238 | the gate is present afterwards, the other gates keep their places and nothing else of the pod changes, and a pod that had the gate is unchanged |
| Syncer.AdmittedMeans | pkg/tapp/instance.go:206-226 | a created pod is pending and carries the gate, and keeps its name, labels, annotations and other spec |
| Syncer.EveryInterleavingAgrees | pkg/tapp/instance.go:159-195 | with distinct ids, every interleaving of the Get and act halves of all goroutines ends in the store of running them in list order |
| Syncer.ProgressOfSchedule | pkg/tapp/instance.go:159-195 | a goroutine's progress under any schedule is the number of times it was scheduled, capped at two, so all finish exactly when each was scheduled twice |
| Witnesses.OverlappingIdsRace | pkg/tapp/instance.go:206-259 | why the ids must be distinct: a create and a delete of one id, each asking before the other acts, leave another store than one after the other |
| Syncer.RunAllPointwise | pkg/tapp/instance.go:206-274 | each id ends with the effect of its one operation, ids without an operation are untouched |
| Syncer.RunUpdatesPointwise | pkg/tapp/instance.go:276-285 | each updated id that exists is merged once, missing ids stay missing, others are untouched |
| Syncer.UpdatesFollow | pkg/tapp/instance.go:197-203 | two updates of one id are merged one after the other, in list order |
| Syncer.SyncStoreAt | pkg/tapp/instance.go:159-204 | the pod under every id after a whole plan: created, dying, gone, merged or untouched |
| Syncer.InstanceStore.RunGoroutines | pkg/tapp/instance.go:159-195 | under an arbitrary scheduler the loop ends, with all goroutines done, in the store of some schedule |
| Syncer.InstanceStore.UpdateInOrder | pkg/tapp/instance.go:197-203 | updates are applied in list order to the store in place |
| Syncer.InstanceStore.SyncInstances | pkg/tapp/instance.go:159-204 | goroutines to the end and then the updates; with distinct ids the result does not depend on the schedule |
| Readiness.FindCondition | pkg/tapp/tapp_utils.go:168-178 | the scan finds the first condition of a kind, or the end |
| Readiness.SetInPlaceUpdateCondition | pkg/tapp/controller.go:1177-1257 | the in-place write of the condition array is the gate write that the lemmas below are about; nothing else of the pod changes |
| Readiness.SetGateConditions | pkg/tapp/controller.go:1182-1237 | after a write the gate has the status, and Ready follows it down, and up only when the gate had taken it down |
| Readiness.GateRoundTrip | pkg/tapp/controller.go:1185-1237 | closing and opening the gate restores the Ready status if and only if Ready was not already taken down by the gate and no Unknown was overwritten |
| Witnesses.UnknownReadyIsLost | pkg/tapp/controller.go:1225-1237 | a failing input: a Ready that was Unknown is not restored |
| Witnesses.OwnedFalseIsLost | pkg/tapp/controller.go:1225-1237 | a failing input: a Ready that the gate had already turned False is not restored |
| Readiness.OthersReadyFalseSurvives | pkg/tapp/controller.go:1225-1237 | a Ready that another party turned False is unchanged by every sequence of gate writes |
| Readiness.ClosedMeans | pkg/tapp/controller.go:1209-1224 | closing the gate turns a first Ready that is not False to False with the reason and message of the gate |
| Readiness.ReopenedMeans | pkg/tapp/controller.go:1225-1237 | opening the gate turns Ready True exactly when it was False with that reason and that message |
| Readiness.GateStaysSingle | pkg/tapp/controller.go:1185-1203 | a write adds a gate entry only when there was none |
| Readiness.GateWriteKeepsTheRest | pkg/tapp/controller.go:1185-1237 | a write sets the status alone of the first gate entry, may change the first Ready entry, appends at most a bare gate entry and leaves all other entries in place |
| Readiness.SyncPodConditions | pkg/tapp/controller.go:1143-1175 | in any goroutine order every pod gets the gate status of its own: closed when selected or updating, open otherwise |
| Readiness.GatePassMeans | pkg/tapp/controller.go:1143-1175 | the pass changes conditions only, closes the gate of exactly the selected pods and of running pods with an update under way, and opens all others |
| Readiness.SelectedIsDown | pkg/tapp/controller.go:1147-1161 | a selected pod is still available after the pass if and only if it was available with its gate closed already |
| Witnesses.ClosedGateIsSkipped | pkg/tapp/controller.go:1185-1192 | an input for that: a pod that is ready although its gate is closed stays available when selected |
| Readiness.UnselectedStaysAvailable | pkg/tapp/controller.go:1159-1175 | the gate pass leaves an available pod that was not selected available |
| Planner.GetDesiredInstance | pkg/tapp/controller.go:602-628 | the loops compute the desired running and completed sets |
| Planner.SyncRunningPods | pkg/tapp/controller.go:721-762 | in any order, exactly the actions for missing, dying, migrating and stale desired pods |
| Planner.SyncCompletedPods | pkg/tapp/controller.go:764-774 | deletes exactly the existing completed pods |
| Planner.SyncUnwantedPods | pkg/tapp/controller.go:776-788 | deletes exactly the pods whose id parses to a number at or beyond the replicas; other strings are left alone |
| Planner.MergePodActions | pkg/tapp/controller.go:790-799 | later maps win, whatever the order within each map |
| Planner.GetNextActionsForPods | pkg/tapp/controller.go:713-719 | the three maps merged |
| Planner.GetAvailablePods | pkg/tapp/controller.go:693-711 | exactly the desired pods that are active, not updating and marked ready |
| Transformer.DeleteAndCreate | pkg/tapp/controller.go:806-825 | under the order the loop took, the first phase's plan and available set are those of the specification |
| Transformer.ForceUpdates | pkg/tapp/controller.go:838-871 | the same for the force phase, including the collection of the rolling candidates |
| Transformer.RollingUpdates | pkg/tapp/controller.go:891-912 | the same for the rolling phase over its sorted candidates |
| Transformer.SpendBudgets | pkg/tapp/controller.go:801-915 | the three phases with their shared available set; an unreadable budget ends the transformation before its phase |
| Transformer.TransformPodActions | pkg/tapp/controller.go:801-915 | the result is a plan of the specification under some pair of orders |
| Transformer.InstanceToSync | pkg/tapp/controller.go:679-689 | from the pod list to the plan, with fresh template hashes |
| Transformer.HashKeepsDesired | pkg/tapp/controller.go:602-628 | hashing the templates moves no instance into or out of the desired sets |
| Selection.OrdinalParses | pkg/tapp/controller.go:621-624 | every desired id parses to its own ordinal below the replicas, so it is never unwanted |
| Selection.OrdinalCount | pkg/tapp/controller.go:621-624 | there are as many ordinals as replicas |
| Selection.BeyondMeans | pkg/tapp/controller.go:776-788 | the unwanted ids are exactly those that spell a number from the replica count up within 64 bits, of the canonical ones those at or beyond the count |
| Selection.PartsAgree | pkg/tapp/controller.go:713-799 | running actions share no id with completed or unwanted ones, and those two overlap only on delete |
| Selection.MergeIsOrderIndependent | pkg/tapp/controller.go:790-799 | merging the three maps in any order gives the same actions |
| Selection.NextActionsAt | pkg/tapp/controller.go:713-799 | what the merged actions say of every id, desired or not |
| Selection.JobIsSane | pkg/tapp/controller.go:721-825 | phase-one deletes never hit an available pod, every planned update can be built, and candidates have different numbers |
| Selection.DeleteCreatePhase | pkg/tapp/controller.go:806-825 | for every order, the first phase sorts each visited id into the list its verdict names, once, and takes no available pod |
| Selection.ForcePhase | pkg/tapp/controller.go:838-871 | for every order, what has been spent after any part of the visit, with rolling candidates collected once each |
| Selection.RollingPhase | pkg/tapp/controller.go:891-912 | who has been started after any part of the list, by position |
| Selection.SortAscending | pkg/tapp/controller.go:885-889 | the rolling candidates are in numeric order |
| Guarantees.ExactForceCount | pkg/tapp/controller.go:827-871 | for every order the started available force candidates number the lesser of all of them and what the available pods exceed the minimum by; the whole count when all candidates are available |
| Guarantees.ForceCountOfSync | pkg/tapp/controller.go:827-871 | the same for every app, pod map and node cache a sync can meet |
| Guarantees.ExactRollingSelection | pkg/tapp/controller.go:873-912 | an id is started if and only if it is a candidate and is unavailable or has fewer lower-numbered available candidates than the budget leaves room for |
| Guarantees.RollingSelectionOfSync | pkg/tapp/controller.go:873-912 | the same for every app, pod map and node cache a sync can meet |
| Guarantees.ExactRollingCount | pkg/tapp/controller.go:873-912 | the started available candidates number the lesser of all of them and what the budget leaves |
| Guarantees.PlanKeepsFloor | pkg/tapp/controller.go:801-915 | a plan leaves at least the least of what was available and what either budget asks to keep, also with unreadable budgets |
| Guarantees.PendingChangeStarts | pkg/tapp/controller.go:827-912 | with all desired pods available and both budgets at least 1, a pending change is started |
| Guarantees.SoundPartition | pkg/tapp/controller.go:801-936 | the four lists share and repeat no id; creates have no pod, the others do; only dying pods are force-deleted, none is deleted or updated; every living completed or excess pod is deleted |
| Guarantees.TransformIsPlan | pkg/tapp/controller.go:801-915 | every pair of visiting orders yields a plan whose instances can all be built |
| Plans.PlanListsExactly | pkg/tapp/controller.go:713-961 | in every plan of a sync, told from spec, pods and nodes alone: exactly which instances are created and force-deleted; exactly which living pods are deleted besides changes; a change that begins is an update in place if the pod has the uniq label of its template, and a deletion otherwise |
| Plans.BudgetsAreSpent | pkg/tapp/controller.go:827-912 | in every plan of a sync, with rolling membership read from the names in the spec: how many available pods begin to change in each phase, exactly, and which ones in the rolling phase |
| Plans.UnreadableBudgets | pkg/tapp/controller.go:827-882 | an unreadable force budget lets no change begin, an unreadable rolling budget none of a rolling instance |
| Plans.OneTemplateRollsAll | pkg/tapp/controller.go:842-912 | with one template for all instances and none named as rolling, no change is a forced one, and no plan takes more available pods than exceed what the rolling budget keeps |
| Plans.ImageChangesAreInPlace | pkg/tapp/controller.go:741-757 | a pod made from a template that differs from the new one in images only is never deleted for the change, and one that differs in more is never updated in place unless the uniq hash collides |
| Plans.PlannedUpdateAgrees | pkg/tapp/instance.go:413-437 | every update of a plan gives its pod the main containers and uniq label of a newly made one, and the next sync sees no template change |
| Guarantees.PlannedSyncIsConfluent | pkg/tapp/instance.go:159-204 | for every plan of the planner, every interleaving of its goroutines followed by its updates ends in the same store |
| Guarantees.CollectionKeepsPlans | pkg/tapp/controller.go:511-533 | a plan is possible before template collection if and only if it is possible after |
| Status.RecordPod | pkg/tapp/controller.go:976-1013 | one turn of the loop writes the pod's own status, or nothing for an unknown phase |
| Status.FillMissing | pkg/tapp/controller.go:1016-1027 | ordinals without a pod become killed, keep a finished status, or are not created; recorded ones are untouched |
| Status.GetInstanceStatus | pkg/tapp/controller.go:963-1029 | the loops compute the statuses that the lemmas below are about |
| Status.GenAppStatus | pkg/tapp/controller.go:1040-1065 | in any order of the map: pending when empty, running when any is alive, then failed, succeeded, killed |
| Status.GetTotalReplicas | pkg/tapp/controller.go:1083-1091 | the number of ids not marked as not created |
| Status.GetReadyReplicas | pkg/tapp/controller.go:1093-1101 | the number of running ids |
| Status.UpdateTAppStatus | pkg/tapp/controller.go:1103-1134 | the status is written only when needed, with the counters of the new statuses, and only the status changes |
| Status.FinishingIsStable | pkg/tapp/controller.go:972-1013 | pods that make an unfinished instance finished say the same of a finished one |
| Status.InstanceStatusesAt | pkg/tapp/controller.go:963-1029 | the new status of an id depends on its own previous status and pods only |
| Status.LastPodTells | pkg/tapp/controller.go:976-1013 | the last pod of an instance that has something to say tells its status: killing when dying and not finished before; failed or succeeded by phase, for the pod only if it is to be started again; running or pending by phase and readiness; unknown |
| Status.SilenceTells | pkg/tapp/controller.go:1016-1027 | without such a pod only ordinals have a status: killed if the spec says so, else what they finished as, else not created |
| Status.TwoComputationsSuffice | pkg/tapp/controller.go:963-1029 | over an unchanged spec and pod list, duplicates, dying pods and unknown phases included, two computations reach a fixed point |
| Status.StatusStabilises | pkg/tapp/controller.go:1067-1134 | after two updates no update is due and a further one changes nothing |
| Status.OneUpdateSuffices | pkg/tapp/controller.go:1067-1134 | one update over the same pods is final if and only if for every instance recorded as finished the pods say nothing that would be forgotten: a finished status, or the same with and without the record |
| Status.OneUpdateIsNotEnough | pkg/tapp/controller.go:972-1013 | a failing input: for a dying running pod of an instance recorded as failed, one update still leaves one due |
| Status.AvailableIsRunning | pkg/tapp/controller.go:693-711 | every id the planner counts as available is recorded as running, whatever was recorded before, with duplicate ids |
| Status.AvailableWithinCounters | pkg/tapp/controller.go:1083-1101 | available pods are at most the ready replicas, which are at most the replicas counted |
| Status.AppStatusMeaning | pkg/tapp/controller.go:1040-1065 | over computed statuses the app is killed if and only if there is an instance and all are killed, and finished if and only if there is one and all are finished |
| Status.AppStatusTells | pkg/tapp/controller.go:1040-1065 | over computed statuses: pending without instances, running while one has not finished, failed when all have finished and one failed, succeeded when none failed and one succeeded, killed otherwise |
| Status.UpdatedStatus | pkg/tapp/controller.go:1067-1120 | after an update the statuses, the app status and the generation are the computed ones, and the write is skipped exactly when they were already |
| Status.WrittenCounters | pkg/tapp/controller.go:1083-1122 | a written status counts all instances but those not created, and those running; they bound the pods the planner counts as available |
| Cluster.ListedMap | pkg/tapp/controller.go:666-677 | mapping any listing of a store gives the store back |
| Cluster.SyncIsPossible | pkg/tapp/controller.go:679-689 | in every state and with every node cache some listing and plan make a sync, so the results about runs are about runs that exist |
| Cluster.SurvivorIsUp | pkg/tapp/controller.go:1136-1175 | what the plan leaves available is still there and available after gate pass and plan |
| Cluster.EarlyExitMeans | pkg/tapp/controller.go:419-424 | a sync is skipped exactly for a finished app whose generation is observed, whose replicas were counted and which has no pods |
| Plans.CreatedFromTemplate | pkg/tapp/instance.go:206-226 | a pod that a sync creates is pending, named and labelled for its instance, and has the spec and annotations of the instance's template with the gate added |
| Plans.DeletedIsDown | pkg/tapp/instance.go:241-274 | a pod that a sync deletes is dying afterwards and one that it force-deletes is gone; neither is available |
| Plans.UpdatedIsDown | pkg/tapp/instance.go:276-285 | after its update a pod has a closed gate and counts as updating until every container shows its new image; exactly when it is available nevertheless |
| Plans.PlannedIsDown | pkg/tapp/controller.go:1136-1161 | as long as a closed gate means not ready, no pod that a sync deletes, force-deletes or updates is available after it |
| Plans.SyncKeepsHonest | pkg/tapp/controller.go:1177-1257 | a sync keeps every closed gate meaning not ready |
| Controller.CarryOut | pkg/tapp/controller.go:1136-1141 | plan, gate pass and plan carried out on the store, and the status written, in that order, leave the store and the status of one step of the state machine |
| Controller.SyncTApp | pkg/tapp/controller.go:419-436 | the whole sync on the app and the store it changes is, for every listing, scheduler and map order, a step of the state machine |
| Cluster.SyncKeepsFloor | pkg/tapp/controller.go:1136-1141 | one sync keeps every floor that the budgets allow, early exit included |
| Cluster.SyncKeepsWellKept | pkg/tapp/instance.go:159-204 | a sync keeps every pod under the id and name it is stored by |
| Cluster.AvailabilityFloor | pkg/tapp/controller.go:801-915 | every floor that holds at the start and that the budgets allow along the run is kept in every state, even as spec and desired set change |
| Cluster.FixedSpecFloor | pkg/tapp/controller.go:693-915 | with the spec and a desired set of size n fixed, available desired pods never fall below min(initial, n - vForce, n - vRolling) |
| Cluster.AdmittedChangeStarts | pkg/tapp/controller.go:827-912 | with an admitted strategy, all desired pods available and a change pending, every plan of a sync starts one |
| Finished.OverPlan | pkg/tapp/controller.go:602-628 | a sync creates the pod of a finished instance again if and only if pods are kept until the app has finished, it has not, the pod is gone, the spec does not kill the ordinal and its template resolves; it never updates one |
| Finished.FinishedInstanceStaysFinished | pkg/tapp/controller.go:972-979 | over every run with an unchanged spec an instance recorded as finished stays so, while its pod dies and after it is gone, if and only if no sync of the run creates it again; until then a pod is there only if it was there from the start |
| Finished.FinishedForGood | pkg/tapp/controller.go:611-619 | unless pods are kept until the app has finished, no sync ever creates a finished instance again |
| Witnesses.FinishedInstanceIsCreatedAgain | pkg/tapp/controller.go:611-619 | a failing input: one of two instances has failed and lost its pod, the app is running, and with the option every plan creates the failed instance again |
| Finished.FinishedAppSync | pkg/tapp/controller.go:602-628 | a sync of a finished app creates and updates nothing, leaves every pod dying or gone, and leaves the app finished |
| Finished.FinishedAppStaysFinished | pkg/tapp/controller.go:963-1065 | over every run with an unchanged spec a finished app stays finished and no pod joins |
| Finished.FinishedAppPodsLeave | pkg/tapp/controller.go:764-774 | from the first sync of such a run on, every pod still there is dying |
| Finished.NoActionsNoPlan | pkg/tapp/controller.go:801-915 | without actions the plan is empty |
| Finished.EarlyExitIsSound | pkg/tapp/controller.go:419-424 | when a sync exits early on statuses computed for the current spec, the planner has no action if and only if every ordinal recorded as killed is killed in the spec |
| Witnesses.EarlyExitMissesACreate | pkg/tapp/controller.go:419-424 | a failing input: an app recorded as killed whose spec no longer kills the instance exits early while the planner has a create action |
| Convergence.SettledVerdict | pkg/tapp/controller.go:713-825 | in a settled state missing pods are created, excess pods deleted, stale pods are candidates, nothing else moves |
| Convergence.WantedIs | pkg/tapp/controller.go:602-628 | desired are the ordinals that the spec does not kill and that are not recorded as failed or succeeded, where records count unless pods are kept until the app has finished |
| Convergence.RoundIsPossible | pkg/tapp/controller.go:1136-1141 | every well-kept state has a sync and a settled state after it |
| Convergence.FinishedAfter | pkg/tapp/controller.go:1040-1065 | a sync of a settled state records the app as finished if and only if there are no pods, some ordinal, and every one is killed by the spec or recorded as finished |
| Convergence.TurnsExactly | pkg/tapp/controller.go:602-628 | which recorded failures a sync moves into or out of the desired set, told from the state before it |
| Convergence.RoundAccount | pkg/tapp/controller.go:679-915 | for every plan of a settled round: each update takes two off the measure, each create and delete one, and each instance moved into or out of the desired set puts one on |
| Convergence.StrictRound | pkg/tapp/controller.go:679-915 | a settled round strictly decreases the measure if and only if fewer instances are moved than the plan weighs |
| Convergence.StrictRoundIff | pkg/tapp/controller.go:602-628 | when finished instances count as completed at once, the measure never increases, and it strictly decreases unless nothing is stale or missing and every excess pod belongs to an instance recorded as failed or succeeded that the spec does not kill |
| Witnesses.RoundWithoutProgress | pkg/tapp/controller.go:602-628 | a failing input: one replica recorded as failed with a living pod; the measure is 1 before and after the round |
| Convergence.UnrestDrops | pkg/tapp/controller.go:963-1065 | whatever was recorded, the statuses stop moving the desired set: a number that is at most four strictly decreases with every settled round until it is zero |
| Convergence.CalmKeepsWanted | pkg/tapp/controller.go:602-628 | once it is zero a round leaves the desired set as it is |
| Convergence.RoundMakesProgress | pkg/tapp/controller.go:679-915 | from any recorded statuses and with either setting of the option, a settled round strictly decreases the potential, or it was and stays zero; the conditions for the next round are kept |
| Convergence.FalseExitStays | pkg/tapp/controller.go:419-424 | a sync that exits early with a desired instance missing does so for ever |
| Convergence.NothingLeftNothingPlanned | pkg/tapp/controller.go:713-915 | at measure zero every plan is empty |
| Convergence.Converges | pkg/tapp/controller.go:679-915 | from any recorded statuses and with either setting of the option: from as many rounds on as the initial potential, no work is left and every plan is empty, if and only if the run did not start in a false early exit |
| Convergence.ConvergesWhenCalm | pkg/tapp/controller.go:679-915 | when the recorded statuses do not move the desired set, the measure alone bounds the number of rounds |

## Left out

- Informers, listers, the work queue, events, leader election, CRD and webhook registration, HTTP and logging: plumbing.
- Generated clients, deep copies, version and flag code: no hard property.
- FNV and the deep hash: the hash is an arbitrary function and a label is its decimal value; no result assumes it injective, except that InPlaceUpdateAgreesWithRecreation assumes no collision on the two templates at hand.
- `GetValueFromIntOrPercent` and the Kubernetes validation helpers are not part of the repository and are modelled by contract, after the library version in `go.mod`: an integer is itself; a string loses its percent signs, is parsed as a number and rounds up by integer ceiling; anything else is an error.
- API failures, write conflicts, retries and cache staleness: API calls succeed, so the retry loops of the gate write, the pod update and the status write go round once.
- Selectors, owner references and the choice between overlapping apps: the pods of an app are given.
- Defaults and label selectors set before a sync (`preprocessTApp`): the model of a sync starts after them; template collection is modelled on its own and proved to change no plan.
- Persistent volume claims, volumes, host names, finalizers and timestamps.
- The pod store holds one pod per id; a graceful delete marks the pod dying and the environment removes it. Pod lists for statuses and availability may hold duplicates.
- `sort.Slice` is modelled as insertion by numeric value; the candidates' numbers are proved different, so every correct sort gives this order.
- Convergence takes the environment to settle between syncs: dying pods go, all others become available, labels stay. Force updates of unavailable pods can be held back by the budget, so no progress is stated for states that do not settle.
- Cluster.AvailabilityFloor: the environment may do anything except take an available desired pod away.
