# The Limitador operator, verified

The Limitador operator turns one custom resource, a `Limitador`, into a Service, a PersistentVolumeClaim, a Deployment,
a ConfigMap and a PodDisruptionBudget, annotates the pods with the version of the ConfigMap, and reports back in the
status of the resource. This project models that reconcile protocol in Dafny and proves what it promises: convergence,
idempotence, soundness of what the status says, safety of what is deleted, and that the derived values (arguments,
annotations, conditions) agree with what they are derived from.

`dafny verify dfyconfig.toml` checks everything.

## How the model works

**The world.** `Cluster.World` is a value: every version of every object so far, every version of the custom resource,
how much of each history the read cache has been shown (`seen`, which only moves forward and matters only when the
cache is `lagging`), the order in which a list call returns pods (`roster`), a version counter, the time of day, and
the operator's own `journal`. The `agenda` says what is going to happen around the next calls: before each call any
number of steps of other actors (a user editing the spec, the deployment controller, other field managers, another
controller setting a condition, any write, creation or deletion of any object, deliveries to the cache, time passing),
and for the call itself no fault, a rejection, or a lost reply (the call takes effect but the caller sees an error). A
theorem about all worlds is therefore a theorem about all interleavings and all failures. Where a theorem asks something
of the other actors, it asks it of the turns that went by while the operator was at work (`Elapsed`), and of no others.
An empty agenda means a quiet environment; `!lagging` means fresh reads.

**The API server.** Server-side apply follows KEP-555: fields form a tree, every field has a set of managers that own
it, a forced apply sets and takes the desired fields and drops those the manager used to list and nobody manages any
more, together with everything below them. Versions move only on a real change, generations only when something
outside the metadata changes.

**The operator.** The Go methods become methods of `BaseReconciler`, `LimitadorReconciler`, `ClientObject` and
`StatusObject`, call by call and field by field, each proved against a function from world to world (`Perform`, `Exec`
of a plan of actions, `AnnotatePods`, `SpecEffect`, `StatusEffect`, `ReconcileEffect`). The theorems are about these
functions, and about `Run(w, n)`, any number of reconciles one after the other.

**The journal and the histories.** Theorems over whole runs speak of what the API server recorded: every apply, create,
delete and status write of the operator, every Deployment it looked at, and every spec it completed. `Histories.Sound`
says that versions increase, that one resource lifetime has monotone generations, and that the cache never shows a
generation older than the one last reported; a newborn resource meets it (`Starts.NewbornMeetsThePremises`).

**What the values are.** Theorems over runs compare what the operator asks for with what is there. That it asks for the
right things is said in `Translation` and `Outcomes`: on the fields of the spec and with the literal names and texts,
without the functions that compute them.

**Which theorems need fresh reads.** Convergence needs the resource to be read as it asks, and fresh reads for the
claim only: a create-only step that trusts a stale read does not notice that the claim is gone (`Converges`).
A spec pass never reads the resource again, so what it achieves does not depend on what the user does to it meanwhile
(`SpecEffectUpholds`). Transition times need each reconcile to see the last status write, nothing more
(`TransitionTimesAreFlips`, `StaleStatusMistimes`). Idempotence and `ClaimBeforeMount` need fresh reads. Ready
soundness, the annotation history, the observed generation, the deletion safety and the life of the claim hold however
the cache lags; `StaleReadMisleads` shows why ready soundness can only promise *some* stored version.

## What the proofs turned up

The model follows the code; these are the places where that may surprise.

- The pod step returns `Requeue: true` at its three gates (`controllers/limitador_controller.go:214-231`), but
  `Reconcile` forwards a result only when `RequeueAfter` is positive, which never happens. The flag is dropped
  (`RequeueIsDropped`), no reconcile ever asks to be called again (`NeverRequeues`), and what brings it back are the
  watches.
- A quiet reconcile fails for exactly two reasons (`QuietReconcileSucceedsIff`): the chosen Redis storage has no usable
  secret, or a claim of the right name exists without the operator's `app` label. The label filter of the cache hides
  such a claim, so the operator tries to create it, and fails, on every run.
- The claim is created whenever disk storage is set, but mounted only when disk is the *selected* storage. With Redis
  set next to it the claim is provided and never mounted (`ClaimWithoutMount`).
- Right after an apply that changes the spec of the Deployment, the stored one never counts as available
  (`ChangedSpecIsUnavailable`), yet a lagging cache can still show the version before, and Ready=True is then written
  and stored (`StaleReadMisleads`).
- A reconcile that does not see the last status write stamps an unchanged Ready condition with a new transition time
  (`StaleStatusMistimes`), and a status write forces back what another controller changed in its own condition since
  the read (`StatusWriteExactly`).
- The test `Generation == Status.ObservedGeneration` in the steady-state check never decides anything
  (`GenerationTestImplied`).
- The span attribute for the storage type prefers cached Redis (`controllers/limitador_controller.go:102-108`) where
  the storage selection prefers plain Redis (`controllers/limitador_controller.go:413-431`). The attribute is not part
  of the model; the selection is modelled as it is.

## Model

| member | source | states |
|---|---|---|
| `Fields.ApplyAchieves` | pkg/reconcilers/base_reconciler.go:103-136 | after a forced apply every desired field has the desired value and the operator owns exactly the desired fields |
| `Fields.ApplyNoOpIffMatches` | pkg/reconcilers/base_reconciler.go:103-136 | an apply changes nothing, owners included, if and only if the object already has and owns exactly what is desired |
| `Fields.ApplyKeepsForeign` | pkg/reconcilers/base_reconciler.go:103-107 | a field of another manager that the operator does not list keeps its value and its owner |
| `Fields.ApplyDropsSubtree` | pkg/reconcilers/base_reconciler.go:103-136 | a field the operator no longer lists and nobody else manages goes away with everything below it |
| `Fields.TryApplyKeepsMatch` | pkg/reconcilers/base_reconciler.go:103-107 | an unforced apply of any other manager cannot disturb what the operator has put in place |
| `Fields.UpdateKeepsMatch` | pkg/reconcilers/base_reconciler.go:103-107 | nor can an ordinary write of another manager that stays off the fields the operator lists |
| `Fields.LastDesiredWins` | pkg/reconcilers/base_reconciler.go:103-136 | after any history of applies and of foreign writes outside its fields, one more operator apply leaves the last spec's fields, drops earlier ones unless somebody else holds them, and keeps all foreign fields |
| `Objects.TagObjectToDelete` | pkg/helpers/helpers.go:20-28 | sets the tag in place, creating the annotation map when it is nil, and touches nothing else |
| `Objects.IsObjectTaggedToDelete` | pkg/helpers/helpers.go:30-38 | true exactly when the annotation is there with the value "true" |
| `Objects.TaggingMarks` | pkg/helpers/helpers.go:20-38 | a tagged object is recognised as tagged, keeps key, fields and other annotations, and exactly the tagged objects send the tag |
| `Reconcilers.BaseReconciler.ReconcileResource` | pkg/reconcilers/base_reconciler.go:110-136 | a tagged object is deleted and an untagged one applied, with the outcome the API server gives under any fault and interference |
| `Reconcilers.BaseReconciler.ReconcilePersistentVolumeClaim` | pkg/reconcilers/base_reconciler.go:154-189 | create-only: a found claim is left alone, only NotFound leads to a create, other read errors end the step |
| `Reconcilers.BaseReconciler.DeleteResource` | pkg/reconcilers/base_reconciler.go:221-233 | deletes, and NotFound is success |
| `Reconcilers.BaseReconciler.ReconcilePodAnnotation` | pkg/reconcilers/base_reconciler.go:246-268 | applies exactly one annotation to the pod |
| `Reconcilers.ExecConcat` | controllers/limitador_controller.go:162-198 | a plan run in two stretches is the plan run at once: the second stretch runs exactly when the first had no error |
| `LimitadorTypes.Limitador.GetReplicas` | api/v1alpha1/limitador_types.go:175-191 | the int32 nearest to the request (so itself when it fits, the near end when it does not), one without a request, and never two or more for a request below two |
| `K8sObjects.DeploymentArgs` | pkg/limitador/deployment_options.go:37-74 | the conditional appends print the resource's choices in the grammar of `CommandLine.PrintFlags`, followed by the storage arguments |
| `K8sObjects.FlagArgs` | pkg/limitador/deployment_options.go:40-68 | the optional flags come out in the grammar's order, each exactly when set, whatever the flags are called |
| `K8sObjects.RedisCachedArgs` | pkg/limitador/redis_cache_storage_options.go:23-37 | prints a command that reads back as cached Redis with each of the four options exactly as set under its own name |
| `K8sObjects.DiskDeploymentOptions` | pkg/limitador/disk_storage_options.go:15-34 | for any resource and disk: the arguments parse to the disk command with the given optimisation, one mount, one volume on the resource's own claim, Recreate |
| `Text.ItoaRoundTrip` | pkg/limitador/deployment_options.go:59-63 | a printed number reads back as itself, for all integers |
| `CommandLine.StorageRoundTrip` | pkg/limitador/redis_cache_storage_options.go:23-37 | the storage kind and every storage option can be recovered from the printed storage command |
| `CommandLine.ArgumentsRoundTrip` | pkg/limitador/deployment_options.go:37-74 | a parser of the emitted grammar recovers headers mode, exhaustive flag, tracing endpoint, verbosity, ports, labels and storage, for all strings and integers |
| `CommandLine.PrintInjective` | pkg/limitador/deployment_options.go:37-74 | different choices never print to the same argument list |
| `K8sObjects.ArgumentsAndEnvironment` | controllers/limitador_controller.go:392-411 | the container's arguments parse to what the resource asks for, and the Redis URL variable is bound, to the URL key of the secret the selected storage names, exactly when it names one |
| `K8sObjects.MountsNameVolumes` | pkg/limitador/deployment_options.go:76-102 | every mount names a declared volume |
| `K8sObjects.PodDisruptionBudget` | pkg/limitador/k8s_objects.go:189-216 | the object built in place is the specified one: tagged without a budget, otherwise with the bounds that are set |
| `K8sObjects.PVC` | pkg/limitador/k8s_objects.go:241-285 | the object built in place is the specified one: tagged without disk, otherwise the defaults overridden by the user's claim |
| `K8sObjects.AssignClaim` | pkg/limitador/k8s_objects.go:268-282 | the user's storage class, volume name and size override the defaults, each only when set |
| `K8sObjects.Deployment` | pkg/limitador/k8s_objects.go:55-149 | the object built is that of the image and the options; `Translation.DeploymentContents` says what stands in it |
| `K8sObjects.ServiceWellMade` | pkg/limitador/k8s_objects.go:22-53 | the Service carries the operator's label, never the delete tag |
| `K8sObjects.ConfigMapWellMade` | pkg/limitador/k8s_objects.go:151-171 | the ConfigMap carries the operator's label, never the delete tag |
| `K8sObjects.AnyDeploymentWellMade` | pkg/limitador/k8s_objects.go:55-149 | the Deployment carries the operator's label, never the delete tag, whatever image and options it is built from |
| `K8sObjects.PdbWellMade` | pkg/limitador/k8s_objects.go:189-216 | tagged exactly when the resource has no budget; otherwise labelled and without the tag |
| `K8sObjects.PvcWellMade` | pkg/limitador/k8s_objects.go:241-285 | tagged exactly when the resource has no disk, selected or not; otherwise labelled and without the tag |
| `K8sObjects.ChoiceOfStrategy` | pkg/limitador/disk_storage_options.go:24-33 | Recreate when disk is set and no Redis storage is, rolling update otherwise |
| `K8sObjects.ClaimMounted` | pkg/limitador/disk_storage_options.go:46-58 | the claim's volume is declared exactly when disk is set and no Redis storage is |
| `K8sObjects.DiskMeansSingleWriter` | api/v1alpha1/limitador_types.go:134 | the Deployment manifest says "Recreate" exactly when disk is set and no Redis storage is, and "RollingUpdate" otherwise; the rolling update field and the mounted claim go with that; for an admitted spec at most one replica is then asked for and the claim is provided |
| `K8sObjects.ClaimWithoutMount` | controllers/limitador_controller.go:413-431 | the claim is wanted but not mounted exactly when disk is set next to a Redis storage |
| `Consistency.PortsAgree` | pkg/limitador/deployment_options.go:57-63 | the ports the printed arguments parse to are the ports of the container, the probes, the Service and the status |
| `Consistency.SelectorsAgree` | pkg/limitador/k8s_objects.go:222-239 | the pods of the Deployment carry every label that the Deployment, the Service and the budget select by and that the operator lists pods by |
| `Consistency.BudgetBounds` | pkg/limitador/k8s_objects.go:207-215 | each bound of the budget is there with the user's value exactly when the user set that bound |
| `Consistency.ClaimContents` | pkg/limitador/k8s_objects.go:252-282 | storage class and volume name stand for the user's settings, the size for the user's or 1Gi, the access mode is ReadWriteOnce |
| `Consistency.LimitsReachTheServer` | pkg/limitador/deployment_options.go:70-102 | the limits file named in the arguments lies below the mount of the volume that shows the ConfigMap, and that ConfigMap holds the limits of the resource, or an empty list when it has none |
| `Consistency.StorageReachesTheServer` | pkg/limitador/disk_storage_options.go:36-58 | a server told to use the disk has the provided claim mounted at the path it is told; one told to use Redis has its URL variable bound to the named secret |
| `Translation.StorageByPriority` | controllers/limitador_controller.go:413-431 | said of the fields of the spec: the arguments parse to plain Redis when that is set, else to cached Redis when that is set, with each of its four options equal to the one set, else to disk with its optimisation, else to memory |
| `Translation.ArgumentsByName` | pkg/limitador/deployment_options.go:37-74 | a reader who looks for the flags by their literal names finds every setting under its own name and no other, for any strings; the remaining words are the exhaustive flag, the verbosity, the limits file and the storage command with its URL variable or path |
| `Translation.ReadsPrint` | pkg/limitador/deployment_options.go:40-70 | the flags in front of the storage command neither hide nor add any of its values or words |
| `Translation.SecretCheckExactly` | pkg/limitador/redis_storage_options.go:15-75 | without Redis nothing is checked; with it, the secret of plain Redis, else of cached Redis, in the namespace of the resource must be named, readable and hold a `URL`, each failure ending the check with its own text |
| `Translation.VariableByPriority` | pkg/limitador/redis_storage_options.go:34-53 | the Deployment binds the URL variable to the `URL` of that same secret |
| `Translation.PortsChosen` | api/v1alpha1/limitador_types.go:139-157 | the ports are those of the listener, 8080 and 8081 where it names none |
| `Translation.DeploymentContents` | pkg/limitador/k8s_objects.go:55-149 | the manifest names the explicit image, else the repository at the version, else the default; the command, the resources, the clamped replicas, and "Recreate" or "RollingUpdate" by storage |
| `Translation.PodSettings` | pkg/limitador/k8s_objects.go:55-149 | affinity and pull secrets are those of the resource, and absent without one |
| `Translation.ServiceIsHeadless` | pkg/limitador/k8s_objects.go:22-53 | the Service has no cluster IP of its own |
| `Translation.ObjectNames` | pkg/limitador/k8s_objects.go:173-220 | the five objects have the names the operator gives them, in the namespace of the resource |
| `Translation.EveryObjectBranded` | pkg/limitador/k8s_objects.go:222-239 | every object wanted carries the seven labels with their values and has the resource as its owner; the pods carry the labels too |
| `Ownership.PdbAsksForOne` | api/v1alpha1/limitador_types.go:359 | an admitted budget lists at most one of the two bounds, at any depth |
| `Ownership.PdbNeverBoth` | pkg/limitador/k8s_objects.go:207-215 | after any history of specs and foreign edits and one more apply of an admitted budget: one of the bounds at least is not listed, and a bound not listed is there only if the operator had never listed it or another manager holds it |
| `Ownership.PdbSwitches` | pkg/limitador/k8s_objects.go:207-215 | on a switch from one bound to the other, in either direction and after any history: all that the new budget asks for is there, and the old bound is gone unless another manager holds it |
| `Ownership.RollingUpdateGone` | pkg/limitador/disk_storage_options.go:24-33 | moving to disk removes the rolling update with everything defaulted below it, unless another manager owns some of it |
| `StatusConditions.DeepCopyConditions` | pkg/helpers/apimachinery_status_conditions.go:11-18 | an equal list in fresh memory |
| `StatusConditions.ConditionMarshal` | pkg/helpers/apimachinery_status_conditions.go:21-28 | the sorted form of the list; the list itself is not modified |
| `StatusConditions.StatusEquals` | api/v1alpha1/limitador_types.go:375-398 | decides equality of generation, sorted conditions and service without modifying either status |
| `StatusConditions.SortSorts` | pkg/helpers/apimachinery_status_conditions.go:24-26 | with unique types the sorted form is strictly increasing by type |
| `StatusConditions.SortedFormUnique` | pkg/helpers/apimachinery_status_conditions.go:24-27 | two strictly sorted lists with the same conditions are the same list |
| `StatusConditions.EqualsIsCanonical` | api/v1alpha1/limitador_types.go:375-398 | with unique types the comparison holds exactly when generation and service agree and the conditions are a permutation of each other |
| `StatusConditions.SetStatusCondition` | controllers/limitador_status.go:91 | the in-place update by type: the transition time moves only when the status value changes |
| `StatusConditions.SetConditionKeepsOthers` | controllers/limitador_status.go:91 | setting a condition keeps types unique, changes and drops no condition of another type, and the set one is there with status, reason, message and generation |
| `Controller.FindDeploymentStatusCondition` | pkg/helpers/k8s_utils.go:7-15 | the loop returns what the first-match search returns, None when nothing matches |
| `ReadySoundness.FirstConditionIsFirst` | pkg/helpers/k8s_utils.go:7-15 | the search finds a condition exactly when it is the first of its type in the list |
| `Controller.LimitadorReconciler.ReconcileService` | controllers/limitador_controller.go:310-334 | performs the apply of the Service and nothing else |
| `Controller.LimitadorReconciler.ReconcilePVC` | controllers/limitador_controller.go:336-360 | performs the create-only step, or the deletion, of the claim and nothing else |
| `Controller.LimitadorReconciler.ReconcileLimitsConfigMap` | controllers/limitador_controller.go:362-390 | performs the apply of the ConfigMap and nothing else |
| `Controller.LimitadorReconciler.ReconcilePdb` | controllers/limitador_controller.go:253-276 | performs the apply, or the deletion, of the budget and nothing else |
| `Controller.LimitadorReconciler.ReconcileDeployment` | controllers/limitador_controller.go:278-308 | checks the storage first and applies the Deployment only when the check had no error |
| `Controller.LimitadorReconciler.GetDeploymentOptions` | controllers/limitador_controller.go:392-411 | fails exactly with the storage check, and otherwise returns arguments, mounts, volumes, strategy and environment of the same storage |
| `Controller.LimitadorReconciler.GetDeploymentStorageOptions` | controllers/limitador_controller.go:413-431 | the Redis kinds demand their secret, and the options returned are those of the storage that `Translation.StorageByPriority` names |
| `Controller.LimitadorReconciler.GetDeploymentEnvVar` | controllers/limitador_controller.go:433-445 | plain Redis binds the URL variable to its own secret, cached Redis, without it, to its own, anything else binds nothing; a Redis storage that names no secret is an error |
| `Controller.LimitadorReconciler.ValidateRedisSecret` | pkg/limitador/redis_storage_options.go:55-75 | the secret must be readable and hold a URL key, each failure with its own error |
| `Controller.LimitadorReconciler.ReconcilePodLimitsHashAnnotation` | controllers/limitador_controller.go:200-251 | the calls of the pod step one by one have the effect that `Outcomes.PodStepExactly` describes |
| `Controller.LimitadorReconciler.PatchPods` | controllers/limitador_controller.go:236-247 | the loop performs the plan of one patch per out-of-date pod, stopping at the first error |
| `Controller.LimitadorReconciler.ReconcileSpec` | controllers/limitador_controller.go:162-198 | the six steps with the abort after each have the effect of the plan followed by the pod step |
| `Controller.SpecPlanStages` | controllers/limitador_controller.go:166-189 | running the plan is running Service, claim, Deployment, ConfigMap and budget in this order with an abort after each |
| `Controller.LimitadorReconciler.CheckLimitadorAvailable` | controllers/limitador_status.go:125-162 | the tests in order with their reasons; a missing Deployment is a reason, another read error an error |
| `Controller.LimitadorReconciler.MakeReadyCondition` | controllers/limitador_status.go:96-123 | a spec error comes first, then the reason of the availability check |
| `Controller.LimitadorReconciler.CalculateStatus` | controllers/limitador_status.go:72-94 | a fresh status with the new generation, the service and the updated conditions; the old status is unchanged |
| `Controller.LimitadorReconciler.ReconcileStatus` | controllers/limitador_status.go:24-70 | writes the status exactly when it differs or the generation does; write errors are wrapped |
| `Controller.LimitadorReconciler.Reconcile` | controllers/limitador_controller.go:56-160 | the status step runs after a spec error too, the spec error wins over the status error, a missing or deleted resource ends quietly |
| `Runs.PlanContents` | controllers/limitador_controller.go:162-198 | what a spec pass may ask for: labelled, untagged applies of the Service, Deployment, ConfigMap and a wanted budget, creation of a wanted claim, deletion of an unwanted claim or budget, the storage check |
| `Runs.ReconcileExtends` | controllers/limitador_controller.go:56-160 | one reconcile, wherever it stops, only extends the histories, keeps them sound, and does nothing the resource it read does not call for; it annotates no pod that a read did not show with the resource's selector labels |
| `Runs.RunSound` | controllers/limitador_controller.go:56-160 | the same over any number of reconciles, faults, interference and any cache lag |
| `Runs.RunOnlyDoes` | pkg/reconcilers/base_reconciler.go:110-136 | everything the operator ever did is called for by a version the resource really had, and every pod it annotated had been shown with the selector labels of that version |
| `Runs.OtherPodsUntouched` | controllers/limitador_controller.go:204-211 | over all runs, a pod that never carried the selector labels of this resource is never touched |
| `Runs.DeletesOnlyUnwanted` | pkg/helpers/helpers.go:20-38 | over all runs only the claim and the budget of the resource are deleted, only when unwanted; nothing stored by the operator carries the delete tag; a created object is the claim of a version with disk |
| `Runs.ObservedGenerationMonotone` | controllers/limitador_status.go:72-74 | over all runs, cache lag included, the observed generation never goes back and never exceeds the generation |
| `Runs.GenerationTestImplied` | controllers/limitador_status.go:39-47 | the generation test of the steady-state check is implied by status equality |
| `Annotations.LoopPatchesExactlyStale` | controllers/limitador_controller.go:236-247 | the patches that reach the API server are those of a prefix of the pods not annotated with the version, once each and in order; all of them unless a patch fails |
| `PodLoop.LoopOnStore` | controllers/limitador_controller.go:236-247 | under any faults, if nobody else touched a pod in the turns that went by during the loop: when it stops at a failed patch, the out-of-date pods before it carry the version in the store and all pods but those and the failed one are stored as before; it ends without error exactly when none is left |
| `PodLoop.LoopCompletes` | controllers/limitador_controller.go:236-247 | under the same premise, when it ends without error every listed pod carries the version in the store, provided those listed as carrying it already did |
| `PodLoop.PodStepOnStore` | controllers/limitador_controller.go:200-251 | if nobody else touched a pod in the turns that went by during the step: it either left every stored pod alone, at a gate or at a failed read, or stopped at some position of the loop as above; with fresh reads and no error every listed pod carries the version of the ConfigMap read |
| `Annotations.AnnotationHistory` | controllers/limitador_controller.go:225-247 | over all runs, cache lag included, every annotation written is a version the ConfigMap really had and the cache had shown, and they never move backwards |
| `ReadySoundness.AvailableIff` | controllers/limitador_status.go:140-161 | the chain of tests finds no reason exactly when all availability conditions hold, said independently of their order |
| `ReadySoundness.ReadyExactly` | controllers/limitador_status.go:96-123 | when the read does not fail, Ready is True exactly when there is no spec error and the Deployment read is available; with fresh reads that is the stored one |
| `ReadySoundness.ReadyIsSound` | controllers/limitador_status.go:72-162 | over all runs, cache lag included: whenever Ready=True was stored with observed generation g the operator had written it, and the last two things it did before each such write were completing every spec step for g without error and then seeing a stored version of the Deployment that was available |
| `ReadySoundness.UnreadyIsSound` | controllers/limitador_status.go:72-94 | a start at which nothing was reported ready meets the premises of the two theorems over runs |
| `ReadySoundness.ChangedSpecIsUnavailable` | controllers/limitador_status.go:140-142 | a changed Deployment spec is not available until the deployment controller has observed it |
| `StaleReads.StaleReadMisleads` | pkg/reconcilers/base_reconciler.go:75-79 | for every new resource without Redis there is a sound world with a lagging cache from which one reconcile stores Ready=True for the current generation while the stored Deployment is not available |
| `Completion.CompletionMeansApplied` | controllers/limitador_controller.go:162-198 | over all runs, cache lag included: when a spec was counted as completed for a generation, the last thing the operator had done to each object it applies was to apply what a version with that generation asks for |
| `Completion.ReadyMeansApplied` | controllers/limitador_status.go:72-162 | over all runs, cache lag included: when Ready=True was stored for g, the operator had written it right after it had seen a stored and available version of the Deployment, and that right after a point at which what it had last applied to each object is what a version with generation g asks for |
| `ConditionHistory.TransitionTimesAreFlips` | controllers/limitador_status.go:72-94 | over all runs in which each reconcile sees the last status write, however other reads lag: every Ready condition written carries the time Ready was first set or its value last flipped, and the stored one is the last written |
| `ConditionHistory.FreshTimesAreFlips` | controllers/limitador_status.go:72-94 | in particular over all runs with fresh reads |
| `ConditionHistory.StaleStatusMistimes` | pkg/reconcilers/base_reconciler.go:75-79 | the premise cannot be dropped: two reconciles of a new resource, the second of which does not see the first status write, and the second time written is wrong |
| `ConditionHistory.StatusWriteExactly` | pkg/reconcilers/base_reconciler.go:235-244 | of the conditions of other types exactly these are there after a status write: those read, with the values read, and those stored since of a type not read unless the operator alone had listed that type; types stay unique |
| `Runs.KeptIsKept` | pkg/reconcilers/base_reconciler.go:235-244 | a forced status apply keeps exactly the stored conditions whose type it does not list and does not give up |
| `Convergence.EnvStepUpholds` | pkg/reconcilers/base_reconciler.go:103-107 | no step of another actor that leaves the fields of the plan alone puts a child out of its desired state, edits of the resource by the user included; and only such an edit changes what the resource asks for |
| `Convergence.ExecUpholds` | controllers/limitador_controller.go:162-189 | whatever the user does to the resource and as far as the others left the children alone in the turns that went by: no stretch of the plan, failing or not, loses a child already in its desired state, and one without error puts all of its own there, the claim when reads are fresh |
| `Convergence.SpecEffectUpholds` | controllers/limitador_controller.go:162-198 | the same of a whole spec pass, pods included, which never reads the resource again |
| `Convergence.PlanDistinct` | controllers/limitador_controller.go:166-189 | no two steps of the plan are about the same object |
| `Convergence.ReconcileConverges` | controllers/limitador_controller.go:56-160 | one reconcile during which the user leaves the resource alone, failing or not, loses no ground; one without error puts every child in its desired state, the claim when reads are fresh, as far as the others left the children alone meanwhile |
| `Convergence.Converges` | controllers/limitador_controller.go:162-198 | over any number of reconciles during which the user leaves the resource alone and the others the fields of the plan, whatever the cache shows of the children: the set of those in their desired state never shrinks, and after the first reconcile without error it is all of them, from then on; the claim is among them when reads are fresh |
| `Convergence.FreshIsAsked` | pkg/reconcilers/base_reconciler.go:75-79 | with fresh reads all that may be read of the resource asks for a spec exactly when the stored one does |
| `Convergence.FreshConverges` | controllers/limitador_controller.go:162-198 | with fresh reads, from any world whose stored resource asks for the spec, all children, the claim included, are in their desired state after the first reconcile without error |
| `Failures.ErrorHasAPlace` | controllers/limitador_controller.go:166-189 | a failing plan has a step before which there was no error and at which it ended |
| `Failures.SpecErrorPrefix` | controllers/limitador_controller.go:162-198 | when the spec fails at step k of the plan, the children of earlier steps are in their desired state as far as the others left the fields of the plan alone in the turns that went by, whatever the user did to the resource, and in every environment the operator touched nothing of a later step, pods included; when it fails at the pods, the same holds of the whole plan and since then only pod annotations were touched |
| `Failures.SpecErrorReported` | controllers/limitador_controller.go:131-143 | the spec error is the result whether or not the status could be written, and the status computed says Ready=False with its text |
| `Failures.OnlyGatesRequeue` | controllers/limitador_controller.go:214-231 | the pod step raises the requeue flag exactly at its gates, without an error and without a delay |
| `Failures.RequeueIsDropped` | controllers/limitador_controller.go:145-159 | a raised flag still stands when the spec step ends, and the reconcile does not ask to be called again |
| `Failures.NeverRequeues` | controllers/limitador_controller.go:145-159 | so no reconcile ever asks to be called again |
| `Failures.GateTouchesNoPod` | controllers/limitador_controller.go:214-231 | a gate ends the pod step without error and without touching anything |
| `Failures.StorageCheckExactly` | pkg/limitador/redis_storage_options.go:15-32 | the check succeeds only with a usable secret in the API server, not the cache, and always then unless the read fails |
| `Failures.DeploymentNeedsSecret` | pkg/limitador/redis_storage_options.go:34-75 | with Redis, the Deployment is applied directly after the secret its URL variable refers to was found to hold a URL |
| `Failures.ClaimBeforeMount` | controllers/limitador_controller.go:171-179 | with disk selected and fresh reads, whatever anybody did before: once the first two steps had no error the claim is in the store, and it still is when the API server gets the Deployment in the very next call, unless somebody deletes it in that turn |
| `Outcomes.SuccessIsReported` | controllers/limitador_controller.go:131-159 | a reconcile without error has told the truth: the last things it did were completing the spec and looking at the Deployment, and then the status read already had the new generation, the service and the verdict on that Deployment, or one that has was written and is stored |
| `Outcomes.StatusErrorIsReturned` | controllers/limitador_controller.go:131-143 | after a clean spec a failed look at the Deployment is the error of the reconcile, a failed status patch is it with its prefix, and there is no error when nothing has to be written or the patch gets through; the verdict is unique |
| `Outcomes.StatusStepExactly` | controllers/limitador_status.go:24-123 | a spec error is reported as such; otherwise the verdict on the Deployment seen is; a status that tells it already is left alone, any other is replaced by one patch that keeps every other condition |
| `Outcomes.ReasonExactly` | controllers/limitador_status.go:125-162 | no reason exactly when the Deployment is available, and else the text of the first test it does not pass, for the first condition of type "Available" |
| `Outcomes.NothingToDo` | controllers/limitador_controller.go:75-129 | a resource that is gone or being deleted is left alone without error, and any other failed read is the error |
| `Outcomes.ClaimStepExactly` | pkg/reconcilers/base_reconciler.go:154-189 | with disk set, a claim that the read shows is left alone, one is created only when the read succeeds and shows none, and a failed read ends the step |
| `Outcomes.PodStepExactly` | controllers/limitador_controller.go:200-251 | no pod listed, another number than set, or no ConfigMap: the flag is raised and no pod touched; otherwise the flag is not raised and a prefix, all without error, of the pods not annotated with its version are patched; failed reads are the error |
| `Outcomes.PodsListed` | controllers/limitador_controller.go:204-212 | exactly the pods of the namespace that a read shows with both selector labels are listed |
| `Idempotence.RepeatIsNoOp` | pkg/reconcilers/base_reconciler.go:110-189 | running a plan again where the first run's objects still stand changes nothing, versions included, and ends with the same error or success |
| `Idempotence.QuietLoop` | controllers/limitador_controller.go:236-247 | without faults the loop leaves every listed pod with the ConfigMap's version and changes nothing but that annotation |
| `Idempotence.PodStepSettles` | controllers/limitador_controller.go:200-251 | after one quiet pod step a gate holds or no listed pod is out of date |
| `Idempotence.StatusStepSettles` | controllers/limitador_status.go:24-70 | after a quiet status step, written or not, the stored status says what the run found |
| `Idempotence.SteadyReflects` | controllers/limitador_status.go:39-47 | a status judged steady really says what the run found, although compared only up to order |
| `Idempotence.ReconcileIdempotent` | controllers/limitador_controller.go:56-160 | fresh reads, quiet environment: whatever the first reconcile ended with, a second one at any later time changes no stored version, patches no pod and writes no status |
| `Independence.ChildrenDisjoint` | pkg/limitador/k8s_objects.go:173-187 | names are injective per kind: different resources have no child in common |
| `Independence.PodsDisjoint` | pkg/limitador/k8s_objects.go:222-227 | no pod is listed for two different resources |
| `Independence.ApartPlansCommute` | pkg/reconcilers/base_reconciler.go:110-189 | plans of which neither looks at what the other writes commute, in what they store (up to versions) and in how they end |
| `Independence.PlansCommute` | pkg/limitador/k8s_objects.go:173-239 | the plans of two different resources commute, also when they share a Redis secret |
| `Independence.ExecSucceedsIff` | controllers/limitador_controller.go:162-198 | without faults a plan succeeds exactly when each of its steps would succeed on its own |
| `Independence.QuietPlanSucceedsIff` | pkg/limitador/redis_storage_options.go:15-75 | without faults the plan succeeds exactly when the storage is usable and the claim is not hidden by the label filter |
| `Independence.QuietReconcileSucceedsIff` | main.go:121-149 | without faults a reconcile ends without error exactly under the same two conditions |
| `Commutation.LeavesOthersAlone` | controllers/limitador_controller.go:162-251 | a whole spec pass of one resource leaves every child and every pod of another exactly as it was, version included |
| `Commutation.StaysSettled` | controllers/limitador_controller.go:200-251 | pods that are up to date with their ConfigMap stay so through the spec pass of another resource |
| `Commutation.PassesCommute` | controllers/limitador_controller.go:162-198 | two whole spec passes in either order: each ends as it would alone, all objects but pods are equal up to versions, and the pods of each resource end up settled in both orders |
| `PodCommutation.PodsCommute` | controllers/limitador_controller.go:236-247 | and every pod has, in both orders, the same owners, fields and values up to the version number in the annotation, given that no annotation names a version not handed out yet |
| `PodCommutation.EnforcedVersion` | pkg/reconcilers/base_reconciler.go:110-136 | after a plan without error an applied object is the very version it was, when it matched already, or newer than anything before |
| `Commutation.ConditionsCommute` | controllers/limitador_status.go:96-162 | and each resource computes the Ready condition it would compute alone |
| `ClaimHistory.ClaimIsKept` | pkg/reconcilers/base_reconciler.go:154-189 | over all runs, cache lag included, during which the others may apply to the claim without force and write any fields of it that no claim of the run was created with: until the operator deletes it, it is stored, keeps every field of its creation, is never hidden by the label filter and is not created again |
| `Starts.NewbornMeetsThePremises` | api/v1alpha1/limitador_types.go:326-343 | a newly created resource, whatever is on the agenda and whether or not the cache lags, meets the invariants that the theorems over runs start from; once it can be read it asks for its spec, and with fresh reads or an empty agenda it meets the premises on those |
| `ResourceAttributes.ResourceAttributesOf` | pkg/observability/otel.go:75-84 | the loop fills exactly the map of the pairs of the input, empty for the empty input |
| `ResourceAttributes.LastPairWins` | pkg/observability/otel.go:78-82 | for arbitrary input a key is present exactly when some part with '=' has it, with the value of the last such part |
| `ResourceAttributes.SplitExactly` | pkg/observability/otel.go:79 | the parts have no comma and, put together with commas, are the input |
| `ResourceAttributes.TrimSpaceExactly` | pkg/observability/otel.go:81 | trimming takes all spaces off both ends and nothing else |
| `ResourceAttributes.PairExactly` | pkg/observability/otel.go:80-82 | the first '=' separates key and value, later ones belong to the value, and spaces around either do not count |
| `ResourceAttributes.AttributesRoundTrip` | pkg/observability/otel.go:76-84 | joining well-formed pairs, repeated keys included, and parsing gives the map they stand for |
| `ResourceAttributes.MapRoundTrip` | pkg/observability/otel.go:76-84 | a map with well-formed keys and values, written in any order and parsed, comes back |

## Left out

- Spans, loggers, exporters, the debug JSON dump and the error paths that come only from a missing logger in the
  context: side effects on other libraries, erased from the steps.
- `main.go` beyond two facts kept as assumptions: the label filter of the cache and the uncached Secrets.
- JSON and YAML encodings: taken as injective. The serialised conditions are the sorted list itself, the limits are
  carried already serialised, times are whole seconds; a YAML marshalling error of the limits is not modelled.
- `sort.Slice` is modelled by its result, a stable insertion by type; for lists with repeated types the real order is
  unspecified, and the theorems that depend on it ask for unique types.
- `meta.SetStatusCondition` and the string and split functions of the Go library are modelled by their documented
  behaviour.
- The default image is a constant; the environment variable that can replace it is not modelled. Probes, affinity,
  quantities, default resource requirements and limits are opaque payload; the second port and target names of the
  Service are not spelled out.
- The owner reference, set by the caller of the object builders, is one of the fields common to all objects.
- Names of labels and annotations are constructors (`Segment`), not strings. A version is kept as a number where an
  annotation holds it as text.
- Error texts of the API server are approximations; the operator's own are exact.
- API-server defaulting, validation beyond the two CRD rules and verbosity 1 to 4, finalizers (the protection that
  delays the removal of a claim in use) and garbage collection of children. A defaulted field can be introduced as a
  write of another manager, which is how `RollingUpdateGone` speaks of it.
- A deleted object that is created again starts a new generation count, and one run follows one lifetime of the
  resource and one worker per resource.
- A world holds one custom resource. The theorems about two resources (`Independence`, `Commutation`,
  `PodCommutation`) run both spec passes on one store; their status steps write different resources and are compared by
  the condition they compute.
- PodsCommute: pods are compared up to the version number in the annotation, because version numbers depend on the
  order of the passes.
- SpecErrorPrefix: "earlier steps hold" is said as far as nobody else overwrote or deleted what they had put in place
  before the failure; the claim is included with fresh reads; the other half, nothing later touched, is for every
  environment.
- LoopOnStore: what it says of the stored pods assumes that nobody else touched a pod while the loop ran; what reaches
  the API server is said for every environment by `LoopPatchesExactlyStale`.
- StatusWriteExactly: a controller that has once set a condition is taken to hold that entry from then on.
- `MergeMapStringString`, `EnsureOwnerReference`, `GetResource`, `UpdateResource` and plain getters: no property that
  reaches beyond one body, or no caller in the reconcile path.
