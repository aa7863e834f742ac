# Churnless: a verified model of its two reconcilers

Churnless keeps a two-level hierarchy: a Deployment controller drives ReplicaSets, and a ReplicaSet
controller drives Pods. Healthy Pods are changed in place; they are replaced only for structural changes.
This project models the decisions both controllers take and proves what those decisions keep, call by call
and over whole runs in which status is stale, writes are late and calls fail.

The modules follow the program.

- `Rollout`, `RolloutRuns`, `Availability`: the RollingUpdate policy over the replica counts and a possibly
  stale status, its termination and deadlock freedom, and the real availability behind the reports.
- `Recreate`: the Recreate policy as a mutual-exclusion protocol over live Pods.
- `DeploymentController`, `Reconcile`, `Synchronisation`, `ReconcileRuns`: the loops and patches over ReplicaSet
  objects, one whole Deployment pass, what it does said on the fields of the objects, and runs of passes over an
  arbitrarily edited Deployment.
- `Revision`, `Completion`: the split of a template into a structural and an in-place key, and the fence that
  decides when a rollout is complete.
- `Workload`, `ManagedKeys`, `Metadata`, `Containers`: Pods and templates, the key lists recorded in Pod
  annotations, the three-way metadata merge, and the container setters and checkers.
- `InPlace`, `Matching`, `InPlaceRuns`, `InPlaceConvergence`, `Parallelism`: the budgeted, oldest-first update of
  Pods in place, what its checks mean for the Pod itself, its exact selection, its disruption budget over runs, and
  convergence without losing a Pod.
- `Replicas`, `SlowStart`: the capped create and delete pass and its doubling batches.
- `Ownership`, `Candidates`: adoption and release under an optimistic lock with racing controllers, and the
  cache-indexed candidate list.
- `Arith`, `Results`, `Sorting`, `Counting`: small shared helpers.

Code that changes things step by step is a method proved against a function of its inputs or of the old
state; the results about runs are lemmas about those functions. Where a result speaks of a Pod that matches, has
settled or is due, of a ReplicaSet that is up to date, or of what a key sees, it does so on labels, annotations,
containers, statuses and counts by name, and a lemma ties the check the controllers run to that meaning in both
directions.

## Assumptions

- Fencepost resolution returns two non-negative values that are not both zero.
- The upstream deletion order is a total preorder, given as an integer rank; where a statement says so, it puts
  unavailable Pods before available ones.
- Hashes are injective: a key record stands for its hash.
- Specs and reported counts are non-negative and fit in 32 bits; integers do not wrap.
- Image-name normalisation, the eligibility filter and label selection are arbitrary functions.

## Findings

- *The status of the current ReplicaSet may not run ahead of a spec that can still grow.* That no status exceeds
  the truth is not enough for the availability theorem: a ReplicaSet that was scaled down and is current again
  before its extra Pods are deleted lets two passes spend those Pods twice. The exact condition on its API fields
  is `status.availableReplicas <= spec.replicas` or `spec.replicas` at least desired
  (`Availability.FloorIsKeptExactly`). Reports are taken to become visible in the order they were computed.
- *Recreate relies on the ReplicaSet controller not acting on an old, larger spec.* The spec is read from a cache.
  A create pass keeps revisions apart exactly when none of its Pods may run, its ReplicaSet is live already, or no
  other one is (`Recreate.CreateStaysExclusiveExactly`); `Recreate.StaleReadOverlaps` is a pass that does not.
- *A template that carries one of the three internal annotations may never match.* The exact condition is
  `Metadata.SyncedMatches`.
- *Setters and checkers agree exactly when template containers of one name ask for one value*
  (`Containers.SetAllEstablishesHasAll`).
- *Flipping the resize policy changes the in-place key exactly when there is a regular container*
  (`Revision.PolicyFlipChangesKey`).
- *The completion fence is open at zero replicas*: there a complete Deployment is vouched for exactly when its
  progress is accepted (`Completion.CompletionAtZero`), and `Completion.UnseenSpecCanBeComplete` is one whose newest
  spec nobody has looked at.
- *The completion fence is passed when a status patch mixes two passes.* It is a merge patch, and leaves the status
  as computed exactly under `Completion.MergeReplacesWhole`; otherwise it can put the counts of one pass under the
  key of another. Two families of runs end complete and not vouched for: with a policy flipped around two passes
  (`Completion.MixedMergePassesFence`), and with no more than a spec change before the first status is written
  (`Completion.SecondStatusPassesFence`), as zero counts are omitted from the JSON and so from the patch of a pass
  whose copy had no in-place status.
- *The indexed candidate list sees a change exactly when one of the Pods due for it is selected or indexed*
  (`Candidates.IndexedChangesExactly`); what it claims is right whatever the index holds.

## Model

| member | source | states |
|---|---|---|
| Rollout.StepShape | internal/controller/deployment_controller.go:340-377 | one RollingUpdate pass moves the current ReplicaSet towards desired without passing it, only shrinks old ones, keeps counts non-negative and touches nothing but spec.replicas |
| Rollout.StepKeepsBudgets | internal/controller/deployment_controller.go:340-377 | for any reported status the specs never sum to more than before or than desired + maxSurge, and clamped availability never falls below what it was or below desired - maxUnavailable |
| Rollout.StepIsMaximal | internal/controller/deployment_controller.go:348-371 | a changing pass never stops short: growing fills desired or the surge; shrinking empties the old ReplicaSet, removes exactly the excess when there is one and otherwise exactly the room needed, or spends the availability budget |
| Rollout.DecreaseIsTheMost | internal/controller/deployment_controller.go:360-371 | an old ReplicaSet loses k replicas only if, and up to the largest k for which, the specs stay at desired (or the current one needs them) and clamped availability stays at the floor or where it was |
| Rollout.DecisionIsExact | internal/controller/deployment_controller.go:348-377 | every case of a pass: it grows when there is room, to desired or the surge; otherwise the first old ReplicaSet in listed order that may give anything gives all it may; otherwise the current one goes to desired once every old one is at zero; otherwise nothing changes |
| Rollout.StepMakesProgress | internal/controller/deployment_controller.go:345-377 | every changing pass strictly lowers totalOld + distance of current from desired, for any status and any number of old ReplicaSets |
| Rollout.SettledMeansNothingRemains | internal/controller/deployment_controller.go:373-377 | that measure is zero exactly when current asks for desired and every old ReplicaSet for zero |
| Rollout.NoDeadlock | internal/controller/deployment_controller.go:340-377 | with the current replicas available, whatever the health of the old ones, a pass changes nothing if and only if the rollout is settled |
| RolloutRuns.ChangesAreBounded | internal/controller/deployment_controller.go:340-377 | a run with any status writes at any time changes spec.replicas at most as often as there was work at its start: no oscillation |
| RolloutRuns.FastPassesKeepBudgets | internal/controller/deployment_controller.go:436-448 | any number of passes without a status refresh keep the surge and never spend the same reported available replica twice |
| RolloutRuns.FairRoundsConverge | internal/controller/deployment_controller.go:340-377 | when the new Pods become available between passes the rollout settles, and stays settled, after as many passes as there was work |
| Availability.NodeStepKnowledge | internal/controller/replicaset_controller.go:95-130 | how creations, deletions, recoveries and late status writes change what is known and what is really kept |
| Availability.DeletesInOrder | internal/controller/replicaset_controller.go:370-384 | a deletion of k Pods in the run loses exactly the availability that deleting the first k in the deletion order loses |
| Availability.DeploymentPassKeepsSafe | internal/controller/deployment_controller.go:340-377 | a pass over stale but honest reports keeps them honest and covering the floor |
| Availability.NodeEventKeepsSafe | internal/controller/replicaset_controller.go:343-389 | so does every event of a ReplicaSet acting on a lagging copy of its spec, which may catch up in steps |
| Availability.RealAvailabilityIsKept | internal/controller/deployment_controller.go:340-377 | in every interleaving the Pods really available never drop below desired - maxUnavailable, and the surge over spec holds |
| Availability.StrategyKeepsAvailability | internal/controller/deployment_controller.go:340-394 | the same in the Deployment's own maxSurge and maxUnavailable |
| Availability.FittingStartKeepsFloor | internal/controller/deployment_controller.go:340-377 | from every truthful start whose current ReplicaSet reports at most what it asks for, or asks for desired or more, every run keeps the floor |
| Availability.SafeMeansAvailable | internal/controller/deployment_controller.go:436-448 | of every ReplicaSet the report clamped to its spec never exceeds the Pods really available, and so in total |
| Availability.FreshStartIsSafe | internal/controller/deployment_controller.go:436-448 | every start with settled counts, current statuses and the floor covered satisfies the invariant |
| Availability.StaleCurrentBreaksTheFloor | internal/controller/deployment_controller.go:436-448 | for every spec below desired and every larger status a truthful start has a run that spends the deleted Pods twice and breaks the floor |
| Availability.FloorIsKeptExactly | internal/controller/deployment_controller.go:436-448 | every truthful start with that spec, status and desired count of the current ReplicaSet keeps the floor in every run if and only if the status is at most the spec or the spec is at least desired |
| Recreate.OldPodsMean | internal/controller/deployment_controller.go:484-531 | the check holds if and only if an old ReplicaSet reports a Pod or a listed, selected Pod it controls has neither succeeded nor failed |
| Recreate.RecreateIsExact | internal/controller/deployment_controller.go:324-338 | every case of a pass: the first old ReplicaSet that asks for replicas goes to zero; otherwise nothing changes while an old Pod may run; otherwise the current one goes to desired |
| Recreate.NoDeadlockWithoutOldPods | internal/controller/deployment_controller.go:324-338 | when no old ReplicaSet reports a Pod and every old Pod listed has succeeded or failed, a pass changes nothing if and only if the rollout is settled |
| Recreate.RecreateMakesProgress | internal/controller/deployment_controller.go:324-338 | every changing pass strictly lowers what remains, leaving an old ReplicaSet asking for nothing and the current one for desired |
| Recreate.RecreateConverges | internal/controller/deployment_controller.go:324-338 | once old Pods have gone, one pass for each old ReplicaSet that asks for replicas and one more settle the rollout, whatever else is reported, and it stays settled |
| Recreate.DeploymentPassStaysExclusive | internal/controller/deployment_controller.go:324-338 | a pass makes a ReplicaSet live only when no other is |
| Recreate.RevisionsNeverOverlap | internal/controller/deployment_controller.go:324-338 | over any run of template flips, rollbacks, scaling, wrong statuses and harmless create passes at most one ReplicaSet asks for replicas or owns a Pod that may run |
| Recreate.CreateStaysExclusiveExactly | internal/controller/replicaset_controller.go:69-72 | a create pass on whatever spec it read keeps revisions apart if and only if none of its Pods may run, its ReplicaSet is live already, or no other one is |
| Recreate.FreshReadIsHarmless | internal/controller/replicaset_controller.go:343-361 | a pass that read the spec as it is, or a smaller one, is harmless |
| Recreate.StaleReadOverlaps | internal/controller/replicaset_controller.go:69-72 | a concrete pass on a spec read before the scale-down that overlaps revisions |
| Recreate.ActiveReplicaSetPods | internal/controller/replicaset_controller.go:327-341 | exactly the active Pods in their order, and together with the number terminating exactly the Pods that may still run |
| Recreate.ActiveExactly | internal/controller/replicaset_controller.go:327-341 | a Pod is active if and only if it is pending or running and not being deleted |
| Recreate.NoneRunning | internal/controller/deployment_controller.go:480-483 | that number is zero if and only if no Pod may still run |
| DeploymentController.ViewsShow | internal/controller/workload.go:62-67 | what the totals and decisions read of the objects: an unset spec is one replica and an unset number of terminating Pods none |
| DeploymentController.TotalReplicaSpec | internal/controller/deployment_controller.go:428-434 | the loop returns the sum of the specs, an unset one counting one |
| DeploymentController.TotalAvailableReplicas | internal/controller/deployment_controller.go:436-448 | the loop returns the availability clamped to each spec |
| DeploymentController.TotalOldReplicas | internal/controller/deployment_controller.go:450-461 | the loop returns the sum of the specs of the other ReplicaSets |
| DeploymentController.TotalOldObservedPods | internal/controller/deployment_controller.go:463-478 | the loop returns the reported and terminating Pods of the other ReplicaSets |
| DeploymentController.OldPodsRunning | internal/controller/deployment_controller.go:484-531 | true exactly when an old Pod is reported, or a live selected Pod controlled by an old ReplicaSet is not terminal; an error exactly when the listing failed and was needed |
| DeploymentController.ScaleReplicaSet | internal/controller/deployment_controller.go:412-426 | patches exactly one spec.replicas, reports no change and touches nothing when it already has the value, and fails only if the patch does |
| DeploymentController.StrategyDecides | internal/controller/deployment_controller.go:380-394 | capping maxUnavailable at the replica count changes no decision: a pass decides by maxSurge and maxUnavailable themselves |
| DeploymentController.PassKeepsStrategy | internal/controller/deployment_controller.go:340-394 | in the Deployment's own strategy a pass keeps desired + maxSurge and desired - maxUnavailable, grows to desired or the whole surge, and stops shrinking only at zero, at the excess or the room needed, or at that floor |
| DeploymentController.RecreatePass | internal/controller/deployment_controller.go:324-338 | the loop and checks carry out the Recreate decision and report a change exactly when they made one; a needed listing that failed is an error that changes nothing |
| DeploymentController.FirstToShrink | internal/controller/deployment_controller.go:352-372 | the loop over old ReplicaSets finds the first that may shrink, and by how much |
| DeploymentController.RollingPass | internal/controller/deployment_controller.go:340-377 | the pass over the objects carries out the RollingUpdate decision with one patch and reports a change exactly when it made one |
| DeploymentController.RolloutPass | internal/controller/deployment_controller.go:318-378 | one pass under either strategy scales exactly as decided and nothing else, and fails without a change exactly when it needs a listing that failed |
| DeploymentController.ParallelismWithinBudget | internal/controller/deployment_controller.go:294-316 | the slots are exactly what the budget leaves: none without replicas, every Pod under Recreate, and otherwise maxUnavailable less the replicas missing, or one when both are zero; so slots and missing stay within max(1, maxUnavailable) |
| Reconcile.ReplicaSetForRevision | internal/controller/deployment_controller.go:191-201 | finds the first ReplicaSet labelled with the key, or none |
| Reconcile.NewestReplicaSet | internal/controller/deployment_controller.go:203-207 | finds the first of the youngest ReplicaSets |
| Reconcile.CurrentReplicaSet | internal/controller/deployment_controller.go:85-89 | the labelled ReplicaSet, or the youngest while paused |
| Reconcile.CreateReplicaSet | internal/controller/deployment_controller.go:216-260 | a new ReplicaSet has no replicas, no update slot, the stamped template and a selector stamped with its revision; without a selector, or when refused, there is none |
| Reconcile.ParallelismFor | internal/controller/deployment_controller.go:98-104 | computes the slots from clamped availability, and none while paused |
| Reconcile.SyncReplicaSet | internal/controller/deployment_controller.go:262-292 | brings template (unless paused), policy and slots up to the Deployment and patches exactly when that changed anything |
| Reconcile.RollOut | internal/controller/deployment_controller.go:117-123 | the objects after a rollout differ from before only in the decided spec.replicas, and the change is reported exactly |
| Reconcile.SyncOrRollOut | internal/controller/deployment_controller.go:105-124 | at most one of synchronising and rolling out happens in a pass, the status is written between them and may end it, and rolling out never happens while paused |
| Reconcile.ReconcileDeployment | internal/controller/deployment_controller.go:62-129 | a whole pass over the objects carries out the specified pass, fails exactly where that says, and otherwise reports a change exactly when it made one |
| Synchronisation.CurrentIs | internal/controller/deployment_controller.go:83-89 | the current ReplicaSet is the first labelled with the revision, or while paused, when none is, the first of the youngest |
| Synchronisation.NoCurrent | internal/controller/deployment_controller.go:85-89 | there is none exactly when none is labelled and the Deployment is not paused or has none at all |
| Synchronisation.SyncedIsUpToDate | internal/controller/deployment_controller.go:262-292 | synchronising leaves the ReplicaSet alone if and only if its template (unless paused), minReadySeconds, policy and slots already are the Deployment's, makes them so, and touches nothing else |
| Synchronisation.CreatedIsNew | internal/controller/deployment_controller.go:209-260 | a new ReplicaSet asks for nothing and may update nothing; its selector and template are the Deployment's with the revision stamped on both |
| Synchronisation.PassIsFaithful | internal/controller/deployment_controller.go:62-129 | every case of a pass on the fields of Deployment and ReplicaSets: create; or bring the current one up to date and move no replica count; or, only with it up to date, unpaused and the status written, move one count as the strategy decides |
| Synchronisation.FailsExactly | internal/controller/deployment_controller.go:91-124 | a pass is an error exactly without a selector to create with, or, with the current ReplicaSet up to date, on a refused status or a failed listing that is needed |
| Synchronisation.TwoPassesBringUpToDate | internal/controller/deployment_controller.go:62-129 | two accepted passes over an unchanged Deployment leave a current ReplicaSet that is up to date with it |
| ReconcileRuns.PassChangesOne | internal/controller/deployment_controller.go:85-124 | a pass creates one ReplicaSet or changes at most one, and scales only with the current one up to date |
| ReconcileRuns.RunStaysWellKept | internal/controller/deployment_controller.go:191-292 | over any run every ReplicaSet keeps its identity and revision, revisions stay distinct, and each template agrees with the key it is labelled with |
| ReconcileRuns.TemplatesChangeOnlyInPlace | internal/controller/deployment_controller.go:262-292 | however the Deployment is edited, paused or rolled back, the template of a ReplicaSet changes only in fields that are updated in place |
| ReconcileRuns.RollbackReusesReplicaSet | internal/controller/deployment_controller.go:191-201 | a revision that had a ReplicaSet selects the same one after any run |
| ReconcileRuns.SelectorsAreDisjoint | internal/controller/deployment_controller.go:225-229 | after any run no Pod matches the selectors of two ReplicaSets of the Deployment |
| ReconcileRuns.PausedRunIsFrozen | internal/controller/deployment_controller.go:102-116 | while paused no ReplicaSet is added, scaled, given another template or an update slot |
| ReconcileRuns.PausedMeansNoSlots | internal/controller/deployment_controller.go:102-104 | after a paused pass the ReplicaSet current to it has no update slot in any state a paused run reaches |
| ReconcileRuns.SurgeSurvivesRollover | internal/controller/deployment_controller.go:340-377 | however often the template changes mid-rollout, the specs of all ReplicaSets never sum to more than at the start or than desired + maxSurge |
| Revision.StructuralRevision | internal/controller/deployment_controller.go:167-189 | stripping a clean copy step by step yields the structural key |
| Revision.ClearImages | internal/controller/workload.go:164-171 | every image is cleared and nothing else |
| Revision.ClearResizableResources | internal/controller/workload.go:173-187 | only CPU and memory are cleared from requests and limits |
| Revision.InPlaceRevision | internal/controller/workload.go:107-147 | the two loops list init containers, then regular ones with resources under the policy |
| Revision.StructuralKeySees | internal/controller/deployment_controller.go:167-189 | structural keys agree if and only if both or neither Deployment carries churnless.io/in-place-resources: best-effort, the restart requests agree, and the templates differ only in labels, annotations, images and, with that annotation, CPU and memory of regular containers |
| Revision.InPlaceKeySees | internal/controller/workload.go:107-147 | in-place keys agree if and only if the templates' own labels and annotations, their containers' names and images, and under the policy the CPU and memory of regular ones agree |
| Revision.SplitIsLossless | internal/controller/workload.go:98-187 | both keys agree if and only if opting in and the restart requests agree and the templates are the same but for the structural label and the three internal annotations |
| Revision.PolicyFlipChangesKey | internal/controller/workload.go:107-147 | a policy flip alone changes the in-place key if and only if there is a regular container |
| Revision.StampingKeepsKeys | internal/controller/workload.go:149-162 | stamping the revision label on a template changes neither of its keys |
| Completion.CalculateProgress | internal/controller/workload.go:189-210 | the counters are the eligible, matching and ready-and-observed Pods, in decreasing order |
| Completion.ProgressMeans | internal/controller/workload.go:189-210 | the counters are the eligible Pods that carry the template, and those of them that have settled, said on the Pods' fields |
| Completion.CompleteExactly | internal/controller/deployment_controller.go:661-686 | a Deployment is complete if and only if no old ReplicaSet asks for or reports a Pod, the current one asks for desired and has as many available, and its accepted progress counts all of them, or none is desired |
| Completion.MergeReplacesWhole | internal/controller/replicaset_controller.go:532-534 | a status patch leaves the status as computed if and only if every field that is not sent, a zero count on a copy without in-place status included, is already as computed |
| Completion.StepStaysGrounded | internal/controller/replicaset_controller.go:506-535 | the status is that of the pass that wrote last after every event but a mixing write, and after a write if and only if it does not mix |
| Completion.AcceptedIsPresent | internal/controller/deployment_controller.go:676-686 | accepted non-zero progress was computed from the present spec and in-place key with every Pod matching and ready |
| Completion.CompletionIsFenced | internal/controller/deployment_controller.go:661-686 | over any run of spec changes, policy flips and status writes however late, none mixing two passes, completion with desired > 0 is vouched for by a pass over exactly the present spec, key and policy that found every Pod carrying the template and settled |
| Completion.CompletionAtZero | internal/controller/deployment_controller.go:661-686 | at zero replicas a complete Deployment is vouched for if and only if its progress is accepted |
| Completion.UnseenSpecCanBeComplete | internal/controller/deployment_controller.go:661-686 | a spec no status has observed can count as complete at zero replicas |
| Completion.MixedMergePassesFence | internal/controller/replicaset_controller.go:532-534 | from every start of one stale Pod a run with a policy flip ends complete although no pass vouches for it |
| Completion.SecondStatusPassesFence | internal/controller/replicaset_controller.go:532-534 | so does a run from every ReplicaSet without status, by a spec change before its first status is written |
| Completion.CompleteIsQuiescent | internal/controller/deployment_controller.go:661-674 | a complete Deployment is settled and neither strategy changes anything |
| Completion.ReadyPodsAreLeftAlone | internal/controller/workload.go:212-303 | over ready and observed Pods updatePods makes no call, whatever the parallelism |
| Workload.ChurnlessKeysAreDistinct | internal/controller/workload.go:39-48 | the program's own keys meet the distinctness the metadata results ask for |
| Workload.PolicyFollowsAnnotation | internal/controller/workload.go:77-81 | resources are changed in place if and only if the annotation is there with the value best-effort |
| ManagedKeys.DecodeEncode | internal/controller/workload.go:413-425 | the recorded key list reads back as the same keys, ascending |
| ManagedKeys.EncodeInjective | internal/controller/workload.go:386-387 | comparing the recorded text compares the key sets |
| ManagedKeys.OrderIsLexical | internal/controller/workload.go:413-417 | keys are ordered by the first character in which they differ, a prefix first |
| ManagedKeys.EncodedText | internal/controller/workload.go:413-417 | the text of a key list: null when empty, and otherwise quoted keys in that order between brackets |
| Metadata.DropUnmanaged | internal/controller/workload.go:343-347 | the loop deletes exactly the recorded keys that are no longer managed |
| Metadata.SetPodMetadata | internal/controller/workload.go:334-360 | one Pod of the slice gets the merged labels and annotations and the two key lists; the others stay |
| Metadata.PodMetadataMatches | internal/controller/workload.go:362-388 | true exactly when the Pod carries the template's metadata and records exactly its keys |
| Matching.MetadataMeans | internal/controller/workload.go:362-388 | the check holds if and only if every template label and annotation has its value and the Pod lists exactly the template's keys, the structural label and the three internal annotations apart |
| Metadata.SyncedRecords | internal/controller/workload.go:358-359 | after a synchronisation the Pod remembers exactly the template's keys |
| Metadata.UnmanagedMetadataStays | internal/controller/workload.go:334-360 | labels and annotations the template neither sets nor set last time stay |
| Metadata.SyncedMatches | internal/controller/workload.go:362-388 | a synchronised Pod matches if and only if the template carries no internal annotation with another value |
| Metadata.SyncedTwice | internal/controller/workload.go:334-360 | synchronising twice is synchronising once |
| Metadata.MetadataHistory | internal/controller/workload.go:334-360 | after templates T1..Tn each key has Tn's value, is gone if only an earlier one had it, and is untouched if none did |
| Metadata.StructuralLabelStays | internal/controller/workload.go:390-398 | the structural label is never removed, whoever set it; it has the last template value, or its own when no template sets it |
| Metadata.ReplayIsIdempotent | internal/controller/workload.go:334-360 | reapplying the last template of a history changes nothing |
| Containers.SetContainerImages | internal/controller/workload.go:319-332 | sets the images by name up to the first missing one, and fails exactly when one is missing |
| Containers.SetResizableResources | internal/controller/workload.go:515-536 | one container's CPU and memory become the desired ones and other resource names stay |
| Containers.SetPodResizableResources | internal/controller/workload.go:497-539 | sets CPU and memory by name up to the first missing one, and fails exactly when one is missing |
| Containers.PodContainersHaveImages | internal/controller/workload.go:441-452 | true exactly when every desired name has its image, a missing one reading as empty |
| Containers.PodHasResizableResources | internal/controller/workload.go:475-495 | true exactly when every desired name exists with equal CPU and memory |
| Matching.ImagesMean | internal/controller/workload.go:441-452 | the check holds if and only if the last container of each desired name has its image |
| Matching.ResourcesMean | internal/controller/workload.go:475-495 | the check holds if and only if there is a container of each desired name and the last has the same requests and limits of CPU and memory |
| Matching.SpecMatchesMeans | internal/controller/workload.go:427-439 | the whole check of a Pod means that it carries the template: metadata, key lists, images of init and regular containers and, under the policy, resources |
| Matching.ReadyAndObservedMeans | internal/controller/workload.go:554-583 | ready and observed means carrying the template, ready, without a pending resize, and each container's last report of the desired image |
| Matching.InFlightCount | internal/controller/workload.go:224-232 | the Pods counted as in flight are the eligible, not infeasible ones that carry the template and have not settled |
| Containers.SetAllSucceeds | internal/controller/workload.go:319-332 | a setter succeeds if and only if no desired name is missing, and keeps the containers and their names |
| Containers.WrittenUpToMissing | internal/controller/workload.go:319-332 | a failing setter has set exactly the desired containers before the first one whose name is missing |
| Containers.SetAllFrame | internal/controller/workload.go:497-539 | injected containers, other fields and other resource names stay |
| Containers.SetAllEstablishesHasAll | internal/controller/workload.go:441-539 | after a successful setter its checker holds if and only if desired containers of one name ask for one value |
| Containers.SetAllKeepsOther | internal/controller/workload.go:319-332 | setting images leaves the resource check as it was, and the other way round |
| InPlace.CheckStatuses | internal/controller/workload.go:571-583 | true exactly when every container's reported image normalises to the desired one |
| InPlace.SetPodImages | internal/controller/workload.go:309-317 | images of init, then regular containers; an error leaves those set before it |
| InPlace.ApplyTemplate | internal/controller/workload.go:267-272 | images, metadata and revision annotation of one Pod in the slice |
| InPlace.SendPod | internal/controller/workload.go:273-301 | a refused patch stops, a needed resize follows an accepted one, and nothing else is called |
| InPlace.PatchPod | internal/controller/workload.go:266-301 | the calls, the outcome and the Pod in memory are those of the specified visit |
| InPlace.ResizeOrReplace | internal/controller/workload.go:277-300 | a rejected resize falls back to deletion, any other failure stops |
| InPlace.UpdatePod | internal/controller/workload.go:243-302 | the body of the loop carries out one visit and changes no other Pod |
| InPlace.CountInFlight | internal/controller/workload.go:224-232 | the loop counts the updated Pods that have not settled, infeasible ones excluded |
| InPlace.SortOldestFirst | internal/controller/workload.go:234-242 | sorts the slice stably by creation time |
| InPlace.VisitAll | internal/controller/workload.go:243-303 | the loop stops when the budget is used up or a visit fails |
| InPlace.UpdatePods | internal/controller/workload.go:212-303 | the whole call carries out the specified pass: same calls in the same order, same failure, same Pods in memory, also after a failure |
| Sorting.StableSortSorts | internal/controller/workload.go:234-242 | the sort orders, permutes and keeps equal keys in order |
| InPlaceRuns.PatchedMatches | internal/controller/workload.go:266-275 | after the image, metadata and revision setters metadata and images match and resources are as before |
| InPlaceRuns.SettersEstablishSpecMatches | internal/controller/workload.go:427-434 | the setters together establish the whole check, and a resize is needed exactly when it does not hold without |
| InPlaceRuns.SettersCarryTemplate | internal/controller/workload.go:266-285 | a patched Pod carries everything of the template but possibly CPU and memory, with the in-place revision, and a patched and resized one all of it |
| InPlaceRuns.VisitOutcome | internal/controller/workload.go:243-302 | whatever the API server answers, a Pod that is not due is left alone, a stuck one is deleted, and any other is sent one patch that carries the template, then, if resources differ, one resize with the whole template, then, if that is rejected, a deletion; what is left of it after each answer |
| InPlaceRuns.MissingContainerStops | internal/controller/workload.go:319-332 | a Pod that lacks a container of its template is not sent, and the pass fails |
| InPlaceRuns.SettersFrame | internal/controller/workload.go:266-300 | injected containers, other fields of init and regular containers, other resources and other Pod fields are untouched |
| InPlaceRuns.CreatedPodMatches | internal/controller/replicaset_controller.go:468-492 | a Pod created from a template carries it, with its containers and its in-place revision, and is not due for anything |
| InPlaceRuns.OldestFirst | internal/controller/workload.go:234-242 | the order of a pass is by creation time, Pods of one time as they were listed |
| InPlaceRuns.ExactSelection | internal/controller/workload.go:221-302 | without API errors, for any template whose containers the Pods have, one call acts on precisely the first of the Pods due, as many as the parallelism leaves beside the unsettled ones, oldest first, and touches no other Pod |
| InPlaceRuns.FailureEndsPass | internal/controller/workload.go:243-302 | whatever the API server answers, a failed call ends the pass with every later Pod untouched and unasked, and a pass that reports no failure met none |
| InPlaceRuns.UpdateStaysInBudget | internal/controller/workload.go:212-303 | a call never disrupts more Pods than its parallelism or than already were, wherever it fails |
| InPlaceRuns.DisruptionStaysInBudget | internal/controller/replicaset_controller.go:95-110 | over whole runs missing Pods plus unsettled updates stay within the budget |
| InPlaceConvergence.UpdateConserves | internal/controller/workload.go:243-302 | a pass keeps every identity, and each stale Pod was acted on or is still stale |
| InPlaceConvergence.ConvergesKeepingIdentity | internal/controller/workload.go:212-303 | with the resize policy off, every fair run keeps exactly the same Pods and makes only accepted patches, one for each Pod no longer stale; after n rounds n stale Pods all have the template's labels, annotations, key lists and images |
| InPlaceConvergence.NoPodIsPatchedTwice | internal/controller/workload.go:212-303 | every call of a run is a patch, and no two are about the same Pod |
| InPlaceConvergence.LaterRoundsWriteNothing | internal/controller/workload.go:262-264 | once converged, later calls write nothing |
| Parallelism.ParallelismIsReadBack | internal/controller/replicaset_controller.go:494-504 | the decimal annotation one controller writes is the number the other reads |
| Parallelism.OtherwiseOneAtATime | internal/controller/replicaset_controller.go:494-504 | an absent, unreadable, negative or too large annotation allows one Pod at a time |
| Parallelism.WrittenFitsBudget | internal/controller/deployment_controller.go:294-316 | whatever annotation is found, however stale, it allows at most max(1, maxUnavailable) |
| Parallelism.RollingUpdateDisruption | internal/controller/replicaset_controller.go:95-110 | in every reachable state of a ReplicaSet of a RollingUpdate Deployment, whatever their two counts, the in-place disruption is at most max(1, maxUnavailable) |
| SlowStart.ReceiveBatch | internal/kubecompat/pods.go:45-63 | the count of a batch does not depend on the order in which results arrive |
| SlowStart.OrderIsIrrelevant | internal/kubecompat/pods.go:55-63 | any arrival order of the same results counts the same successes |
| SlowStart.SlowStartBatch | internal/kubecompat/pods.go:40-69 | the loop returns the successes and failure of the specified batches |
| SlowStart.SlowStartIsSafe | internal/kubecompat/pods.go:40-69 | at most count calls, an error exactly when one failed, otherwise count successes, few wasted calls and logarithmically many batches |
| Replicas.SortForDeletion | internal/controller/replicaset_controller.go:370-379 | sorts the Pods in place into the deletion order |
| Replicas.DeleteFirst | internal/controller/replicaset_controller.go:380-384 | deletes a prefix, up to the first refused call |
| Replicas.ReconcileReplicas | internal/controller/replicaset_controller.go:343-389 | creates or deletes at most 500, and the Pods left, the change and the error are as specified; without errors it carries out LivePass |
| Replicas.FailingFirstCallIsTheOnlyOne | internal/controller/replicaset_controller.go:349-361 | creation begins with a single call, and when it fails there is no other |
| Replicas.LivePassSize | internal/controller/replicaset_controller.go:343-389 | a pass that lists the live Pods and creates new ones moves their number by min(diff, 500) towards desired, and at desired changes nothing |
| Replicas.RemovesMostPreferred | internal/controller/replicaset_controller.go:370-384 | no kept Pod is strictly preferred for deletion over a removed one |
| Replicas.LivePassRemovesMostPreferred | internal/controller/replicaset_controller.go:370-384 | a pass that deletes keeps no live Pod strictly preferred for deletion over one it removed |
| Replicas.DeletionSparesAvailable | internal/kubecompat/pods.go:83-100 | deletion costs availability only once every unavailable Pod is gone |
| Replicas.ConvergesWithoutOvershoot | internal/controller/replicaset_controller.go:343-389 | any run of passes without errors brings the live Pods to desired in exactly ceil(diff / 500) changing passes, never crosses desired, and then touches none |
| Replicas.DeletingPrefixCounts | internal/controller/replicaset_controller.go:380-384 | deleting k distinct Pods leaves exactly k fewer |
| Ownership.WithoutOwnKeeps | internal/controller/replicaset_controller.go:176-182 | a release removes exactly the references marked as controller that carry the ReplicaSet's uid; with one controller it is taken out of its place, every other reference stays in order, also one of the same name, and no controller is left |
| Ownership.UpsertKeeps | internal/controller/replicaset_controller.go:199-201 | an adoption makes the ReplicaSet the one controller by a reference in place of the first one to an owner of its group, kind and name, or at the end, and every other reference stays in its place |
| Ownership.Server.PatchOwners | internal/controller/replicaset_controller.go:183-187 | a patch is accepted exactly when the Pod still has the version that was read, and then replaces the whole owner list |
| Ownership.ClaimPods | internal/controller/replicaset_controller.go:159-214 | the first release or adoption is patched and ends the call; without one the controlled, selected Pods are returned; adoption waits for the recheck |
| Ownership.ClaimsExactly | internal/controller/replicaset_controller.go:167-196 | a Pod whose first controller reference has the ReplicaSet's uid is taken or released as its labels are selected or not; one without a controller that is selected is adopted unless the ReplicaSet is being deleted; any other is skipped |
| Ownership.RecheckClears | internal/controller/replicaset_controller.go:304-325 | a recheck lets an adoption go on if and only if the ReplicaSet of that name exists, has the same uid and is not being deleted |
| Ownership.AdoptionWasRechecked | internal/controller/replicaset_controller.go:195-213 | in every run in which ReplicaSets are deleted, replaced and marked at any time, an adoption is sent only after a recheck found its ReplicaSet there, after the Pod was read |
| Ownership.OwnershipStaysSound | internal/controller/replicaset_controller.go:169-213 | in every reachable state of racing controllers each Pod has at most one controller, and every reading is current or will be refused |
| Ownership.OneControllerPerPod | internal/controller/replicaset_controller.go:169-213 | in every reachable state no two owner references of a Pod are marked as the controller |
| Ownership.EveryPatchRespects | internal/controller/replicaset_controller.go:169-213 | after any run, an accepted patch never touches a Pod controlled by another; it takes out its own reference and nothing else when the labels are no longer selected, or puts its reference in and leaves all others; nothing else changes |
| Ownership.ControlledPodIsLeftAlone | internal/controller/replicaset_controller.go:192-193 | over any run the claims of other ReplicaSets never modify a controlled Pod |
| Ownership.OneRacerWins | internal/controller/replicaset_controller.go:202-206 | of two reconciles that read the same Pod only the first patch succeeds |
| Candidates.MergeCandidates | internal/controller/replicaset_controller.go:232-266 | the map holds the live matching Pods and those indexed Pods that still exist, each as it is live |
| Candidates.PodCandidates | internal/controller/replicaset_controller.go:216-277 | the candidates sorted by key, with or without an index |
| Candidates.ListingIsSorted | internal/controller/replicaset_controller.go:268-276 | the listing holds exactly the live Pods of the keys, each once and in ascending order |
| Candidates.IndexedClaimsAgree | internal/controller/replicaset_controller.go:216-277 | for any index contents the claimed Pods are exactly the live controlled and selected ones, in the order of the simple list |
| Candidates.IndexedChangesAgree | internal/controller/replicaset_controller.go:216-277 | the indexed path changes something only if the simple one would; with a covering index exactly then and on the same Pod |
| Candidates.IndexedChangesExactly | internal/controller/replicaset_controller.go:216-277 | the indexed path reports a change exactly when the simple one does if and only if, whenever a Pod is due for one, some Pod due is selected or indexed |
| Candidates.IndexedActsOnSameExactly | internal/controller/replicaset_controller.go:216-277 | it acts on the same Pod if and only if the first Pod due is selected or indexed |

## Left out

- API server, client, watch and requeue plumbing, manager and webhook setup, legacy shadow removal, CRD and RBAC files, the e2e and benchmark programs: input and output or configuration.
- Bodies of upstream Kubernetes code (defaulting, validation, fencepost resolution, `IsPodAvailable`, the deletion comparison): assumed as stated above. `podRanks` and `relatedPods` only feed that comparison.
- The reference parser behind `normalizeImage`: an arbitrary function.
- SHA-256: key records compared for equality.
- Condition messages, timestamps, `replicaSetName`, `fullyLabeledReplicas`: cosmetic.
- Nil and empty maps are one value; resource quantities are canonical integers.
- JSON beyond arrays of plain strings: a recorded value that is not such an array, including one with escapes or inner spaces, records no keys here.
- A list of managed keys written by others with duplicates or out of order is read as a set.
- Wrap-around of 32-bit counts.
- Metadata.MetadataHistory: assumes a Pod that records no managed keys at the start, and templates whose keys are plain and which carry none of the three internal annotations.
- A bound on live Pods during a surge: the source counts only spec.replicas, and so does the model.
- A joint bound for a structural rollout and an in-place update at the same time: both spend the same availability in the source, so each spender is treated alone.
- InPlaceRuns.DisruptionStaysInBudget: fixed template and replica count, and the kubelet does not by itself take a settled Pod out of service.
- InPlaceConvergence.ConvergesKeepingIdentity: asks that matching Pods become ready between calls, as Pods that stay unavailable can take every slot away.
- Availability.RealAvailabilityIsKept: fixed current ReplicaSet and desired count, no spontaneous failures, no in-place updates, reports visible in the order computed; Availability.FloorIsKeptExactly says for which starts it holds.
- Recreate.RevisionsNeverOverlap: no adoption or relabelling, and create passes on an old spec only where they are harmless.
- Completion.CompletionIsFenced: no status write of the run mixes two passes, as otherwise the claim is false.
- Reconcile.CreateReplicaSet: the owner reference to the Deployment and label-selector expressions beyond matchLabels.
- Progress counts in the same pass as a fallback deletion: the deleted Pod is still in memory in the source.
- What the API server itself changes in a Pod it returns from a patch is not written back to the slice.
- Slices of Pods are arrays of values, and the containers of a Pod are a sequence inside it.
- Passes that end before any decision: setting an unset replica count, an unparsable fencepost or selector, a failed list of ReplicaSets or of Pods in claiming.
- The contents of the Deployment status: only that writing it may end a pass.
- Error texts; other values of the resource-policy annotation on a ReplicaSet, which the source would delete on the next pass.
- ReplicaSets deleted by others: the list only grows in `ReconcileRuns`.
