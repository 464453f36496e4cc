/** The reconcile loop (controllers/limitador_controller.go and limitador_status.go): first as functions from world
    to world, then as the methods that make the calls one by one. */
module Controller {
  import opened Wrappers
  import opened Fields
  import opened Objects
  import opened LimitadorTypes
  import opened StatusConditions
  import opened K8sObjects
  import opened CommandLine
  import opened Cluster
  import opened Reconcilers

  // ---------- spec ----------

  const NO_SECRET_REF := "there's no ConfigSecretRef set"

  function SecretKeyOf(lim: Limitador, secret: string): Key {
    Key(Secret, lim.namespace, secret)
  }

  /** The URL variable bound to the `URL` of the secret, which has to be named. */
  function UrlVariable(configSecretRef: Option<string>): Result<seq<EnvVar>> {
    if configSecretRef.None? then Err(Failed("there's no ConfigSecretRef set"))
    else Ok([EnvVar("LIMITADOR_OPERATOR_REDIS_URL", configSecretRef.value, "URL")])
  }

  predicate UsesRedis(choice: StorageChoice) {
    choice.UseRedis? || choice.UseRedisCached?
  }

  /** What must hold before a Deployment may be built. */
  function StorageCheck(lim: Limitador): seq<Action> {
    var choice := SelectedStorage(lim.spec);
    if !UsesRedis(choice) then []
    else
      match SecretRef(choice)
      case None => [Fail(NO_SECRET_REF)]
      case Some(secret) => [DemandURL(SecretKeyOf(lim, secret))]
  }

  function DeploymentPlan(lim: Limitador): seq<Action> {
    StorageCheck(lim) + [ActionFor(DeploymentManifest(lim))]
  }

  function SpecPlan(lim: Limitador): seq<Action> {
    [ActionFor(ServiceManifest(lim)), ClaimActionFor(PvcManifest(lim))]
    + (DeploymentPlan(lim) + [ActionFor(ConfigMapManifest(lim)), ActionFor(PdbManifest(lim))])
  }

  // ---------- pods ----------

  function PodVersion(o: Object): Option<Value> {
    if LIMITS_VERSION_ANNOTATION in o.content.fields then Some(o.content.fields[LIMITS_VERSION_ANNOTATION]) else None
  }

  predicate OutOfDate(pod: ListedPod, version: nat) {
    PodVersion(pod.state) != Some(Version(version))
  }

  /** One patch for each listed pod whose annotation differs from `version`, in list order. */
  function PodPlan(pods: seq<ListedPod>, version: nat): seq<Action> {
    if pods == [] then []
    else
      (if OutOfDate(pods[0], version) then [ActionFor(PodPatch(pods[0].key, version))] else [])
      + PodPlan(pods[1..], version)
  }

  /** controller-runtime's Result. */
  datatype RequestResult = RequestResult(requeue: bool, requeueAfter: nat)

  const DONE := RequestResult(false, 0)
  const AGAIN := RequestResult(true, 0)     // what the gates of the pod step return

  datatype StepOutcome = StepOutcome(world: World, error: Option<Error>, result: RequestResult)

  predicate ReplicasMismatch(lim: Limitador, pods: nat) {
    lim.spec.replicas.Some? && pods != lim.GetReplicas()
  }

  function AnnotateListed(w: World, lim: Limitador, pods: seq<ListedPod>): StepOutcome {
    var got := Get(w, ConfigMapKey(lim));
    match got.1
    case Err(NotFound(_)) => StepOutcome(got.0, None, AGAIN)
    case Err(e) => StepOutcome(got.0, Some(e), DONE)
    case Ok(cm) =>
      var done := Exec(got.0, PodPlan(pods, cm.version));
      StepOutcome(done.0, done.1, DONE)
  }

  function AnnotatePods(w: World, lim: Limitador): StepOutcome {
    var listed := ListPods(w, lim.namespace, SelectorLabels(LABELS, lim));
    match listed.1
    case Err(e) => StepOutcome(listed.0, Some(e), DONE)
    case Ok(pods) =>
      if pods == [] || ReplicasMismatch(lim, |pods|) then StepOutcome(listed.0, None, AGAIN)
      else AnnotateListed(listed.0, lim, pods)
  }

  function SpecEffect(w: World, lim: Limitador): StepOutcome {
    var done := Exec(w, SpecPlan(lim));
    if done.1.Some? then StepOutcome(done.0, done.1, DONE)
    else
      var pods := AnnotatePods(done.0, lim);
      if pods.error.Some? then pods else pods.(world := Note(pods.world, SpecCompleted(lim.generation)))
  }

  // ---------- status ----------

  /** First match, as FindDeploymentStatusCondition searches. */
  function FirstCondition(cs: seq<DeploymentCondition>, t: string): Option<DeploymentCondition> {
    if cs == [] then None else if cs[0].conditionType == t then Some(cs[0]) else FirstCondition(cs[1..], t)
  }

  const AVAILABLE := "Available"

  /** Why the Deployment does not count as available; None when it does. */
  function Unavailability(d: Object): Option<string> {
    var available := FirstCondition(d.status.conditions, AVAILABLE);
    if d.status.observedGeneration != d.generation then Some("Deployment still in progress")
    else if available.None? then Some("Available condition not found")
    else if available.value.status != True then Some(available.value.message)
    else if d.status.unavailableReplicas != 0 then Some("Deployment has unavailable replicas")
    else if d.status.readyReplicas != d.status.replicas then Some("Deployment has replicas not ready yet")
    else None
  }

  function CheckAvailable(w: World, lim: Limitador): (World, Result<Option<string>>) {
    var got := Get(w, DeploymentKey(lim));
    match got.1
    case Err(NotFound(m)) => (Note(got.0, CheckedDeployment(None)), Ok(Some(m)))
    case Err(e) => (got.0, Err(e))
    case Ok(d) => (Note(got.0, CheckedDeployment(Some(d))), Ok(Unavailability(d)))
  }

  const READY_CONDITION := Condition(READY, True, 0, 0, "Ready", "Limitador is ready")

  function ErrorCondition(e: Error): Condition {
    Condition(READY, False, 0, 0, "ReconcilliationError", e.message)
  }

  function ReadyCondition(w: World, lim: Limitador, specErr: Option<Error>): (World, Result<Condition>) {
    if specErr.Some? then (w, Ok(ErrorCondition(specErr.value)))
    else
      var checked := CheckAvailable(w, lim);
      (checked.0, match checked.1
                  case Err(e) => Err(e)
                  case Ok(None) => Ok(READY_CONDITION)
                  case Ok(Some(reason)) => Ok(Condition(READY, False, 0, 0, "LimitadorNotAvailable", reason)))
  }

  function ServiceHost(lim: Limitador): string {
    ServiceKey(lim).name + "." + lim.namespace + ".svc.cluster.local"
  }

  function NewStatus(lim: Limitador, ready: Condition, now: nat): LimitadorStatus {
    LimitadorStatus(lim.generation, SetCondition(lim.status.conditions, ready, now),
                    Some(LimitadorService(ServiceHost(lim), Ports.Ports(lim.HTTPPort(), lim.GRPCPort()))))
  }

  predicate Steady(lim: Limitador, status: LimitadorStatus) {
    Equals(lim.status, status) && lim.generation == lim.status.observedGeneration
  }

  function WriteStatus(w: World, lim: Limitador, status: LimitadorStatus): (World, Option<Error>) {
    if Steady(lim, status) then (w, None)
    else
      var done := PatchStatus(w, status, w.now);
      (done.0, if done.1.None? then None else Some(Failed("failed to update status: " + done.1.value.message)))
  }

  function StatusEffect(w: World, lim: Limitador, specErr: Option<Error>): (World, Option<Error>) {
    var ready := ReadyCondition(w, lim, specErr);
    match ready.1
    case Err(e) => (ready.0, Some(e))
    case Ok(cond) => WriteStatus(ready.0, lim, NewStatus(lim, cond, ready.0.now))
  }

  // ---------- reconcile ----------

  datatype Outcome = Outcome(world: World, result: RequestResult, error: Option<Error>)

  /** The result of a step is passed on only when it names a delay. */
  function Forwarded(r: RequestResult): RequestResult {
    if r.requeueAfter > 0 then r else DONE
  }

  function ResourceEffect(w: World, lim: Limitador): Outcome {
    var spec := SpecEffect(w, lim);
    var status := StatusEffect(spec.world, lim, spec.error);
    var error := if spec.error.Some? then spec.error else status.1;
    Outcome(status.0, if error.Some? then DONE else Forwarded(spec.result), error)
  }

  function ReconcileEffect(w: World): Outcome {
    var got := GetLimitador(w);
    match got.1
    case Err(NotFound(_)) => Outcome(got.0, DONE, None)
    case Err(e) => Outcome(got.0, DONE, Some(e))
    case Ok(lim) => if lim.deleting then Outcome(got.0, DONE, None) else ResourceEffect(got.0, lim)
  }

  /** `n` reconciles one after the other; what happens in between is on the agenda. */
  function Run(w: World, n: nat): World {
    if n == 0 then w else ReconcileEffect(Run(w, n - 1)).world
  }

  // ---------- the methods ----------

  class LimitadorReconciler {
    const base: BaseReconciler

    constructor (base: BaseReconciler)
      ensures this.base == base
    {
      this.base := base;
    }

    method ReconcileService(lim: Limitador) returns (err: Option<Error>)
      modifies base.client
      ensures (base.client.world, err) == Perform(old(base.client.world), ActionFor(ServiceManifest(lim)))
    {
      hide Perform, ActionFor, ServiceManifest;
      var m := ServiceManifest(lim);
      var service := new ClientObject(m.key, m.annotations, m.fields);
      err := base.ReconcileResource(service);
    }

    method ReconcilePVC(lim: Limitador) returns (err: Option<Error>)
      modifies base.client
      ensures (base.client.world, err) == Perform(old(base.client.world), ClaimActionFor(PvcManifest(lim)))
    {
      hide Perform, ClaimActionFor, PvcManifest;
      var pvc := PVC(lim);
      err := base.ReconcilePersistentVolumeClaim(pvc);
    }

    method ReconcileLimitsConfigMap(lim: Limitador) returns (err: Option<Error>)
      modifies base.client
      ensures (base.client.world, err) == Perform(old(base.client.world), ActionFor(ConfigMapManifest(lim)))
    {
      hide Perform, ActionFor, ConfigMapManifest;
      var m := ConfigMapManifest(lim);
      var cm := new ClientObject(m.key, m.annotations, m.fields);
      err := base.ReconcileResource(cm);
    }

    method ReconcilePdb(lim: Limitador) returns (err: Option<Error>)
      modifies base.client
      ensures (base.client.world, err) == Perform(old(base.client.world), ActionFor(PdbManifest(lim)))
    {
      hide Perform, ActionFor, PdbManifest;
      var pdb := K8sObjects.PodDisruptionBudget(lim);
      err := base.ReconcileResource(pdb);
    }

    method ValidateRedisSecret(lim: Limitador, secret: string) returns (err: Option<Error>)
      modifies base.client
      ensures (base.client.world, err) == Perform(old(base.client.world), DemandURL(SecretKeyOf(lim, secret)))
    {
      hide Get;
      var got := base.client.GetObject(SecretKeyOf(lim, secret));
      if got.Err? {
        return Some(got.error);
      }
      if SECRET_URL in got.value.content.fields {
        return None;
      }
      return Some(Failed(NO_URL));
    }

    method CheckedSecret(lim: Limitador, ref: Option<string>) returns (err: Option<Error>)
      requires ref == SecretRef(SelectedStorage(lim.spec)) && UsesRedis(SelectedStorage(lim.spec))
      modifies base.client
      ensures (base.client.world, err) == Exec(old(base.client.world), StorageCheck(lim))
    {
      if ref.None? {
        return Some(Failed(NO_SECRET_REF));
      }
      ghost var before := base.client.world;
      err := ValidateRedisSecret(lim, ref.value);
      SingleAction(before, DemandURL(SecretKeyOf(lim, ref.value)));
    }

    method GetDeploymentStorageOptions(lim: Limitador) returns (r: Result<DeploymentStorageOptions>)
      modifies base.client
      ensures var done := Exec(old(base.client.world), StorageCheck(lim));
        base.client.world == done.0 &&
        r == if done.1.Some? then Err(done.1.value) else Ok(StorageOptionsOf(lim))
    {
      hide Perform, PrintStorage;
      if lim.spec.storage.Some? {
        var storage := lim.spec.storage.value;
        if storage.redis.Some? {
          var err := CheckedSecret(lim, storage.redis.value.configSecretRef);
          if err.Some? {
            return Err(err.value);
          }
          return Ok(DeploymentStorageOptions(PrintStorage(RedisStorage), [], [], ROLLING_UPDATE));
        }
        if storage.redisCached.Some? {
          var err := CheckedSecret(lim, storage.redisCached.value.configSecretRef);
          if err.Some? {
            return Err(err.value);
          }
          var command := RedisCachedArgs(storage.redisCached.value);
          return Ok(DeploymentStorageOptions(command, [], [], ROLLING_UPDATE));
        }
        if storage.disk.Some? {
          var options := DiskDeploymentOptions(lim, storage.disk.value);
          return Ok(options);
        }
      }
      return Ok(DeploymentStorageOptions(PrintStorage(MemoryStorage), [], [], ROLLING_UPDATE));
    }

    /** Fails only when the chosen Redis storage names no secret, which the storage options reported already. */
    method GetDeploymentEnvVar(lim: Limitador) returns (r: Result<seq<EnvVar>>)
      ensures var choice := SelectedStorage(lim.spec);
        r == if UsesRedis(choice) && SecretRef(choice).None? then Err(Failed(NO_SECRET_REF)) else Ok(EnvVarOf(choice))
      ensures var s := lim.spec.storage.GetOr(Storage(None, None, None));
        && (s.redis.Some? ==> r == UrlVariable(s.redis.value.configSecretRef))
        && (s.redis.None? && s.redisCached.Some? ==> r == UrlVariable(s.redisCached.value.configSecretRef))
        && (s.redis.None? && s.redisCached.None? ==> r == Ok([]))
    {
      if lim.spec.storage.Some? {
        if lim.spec.storage.value.redis.Some? {
          r := DeploymentEnvVar(lim.spec.storage.value.redis.value.configSecretRef);
          return;
        }
        if lim.spec.storage.value.redisCached.Some? {
          r := DeploymentEnvVar(lim.spec.storage.value.redisCached.value.configSecretRef);
          return;
        }
      }
      return Ok([]);
    }

    method DeploymentEnvVar(configSecretRef: Option<string>) returns (r: Result<seq<EnvVar>>)
      ensures r == UrlVariable(configSecretRef)
    {
      if configSecretRef.None? {
        return Err(Failed(NO_SECRET_REF));
      }
      return Ok([EnvVar(REDIS_URL_VARIABLE, configSecretRef.value, "URL")]);
    }

    method GetDeploymentOptions(lim: Limitador) returns (r: Result<DeploymentOptions>)
      modifies base.client
      ensures var done := Exec(old(base.client.world), StorageCheck(lim));
        base.client.world == done.0 &&
        r == if done.1.Some? then Err(done.1.value) else Ok(OptionsOf(lim))
    {
      hide Perform, PrintFlags, StorageOptionsOf;
      ghost var before := base.client.world;
      var storage := GetDeploymentStorageOptions(lim);
      if storage.Err? {
        return Err(storage.error);
      }
      var args := DeploymentArgs(lim, storage.value);
      var mounts := DeploymentVolumeMounts(storage.value);
      var volumes := DeploymentVolumes(lim, storage.value);
      var envVar := GetDeploymentEnvVar(lim);
      FailStops(before, NO_SECRET_REF);
      assert envVar.Ok?;
      return Ok(DeploymentOptions(args, mounts, volumes, storage.value.strategy, envVar.value,
                                  lim.spec.imagePullSecrets));
    }

    method ReconcileDeployment(lim: Limitador) returns (err: Option<Error>)
      modifies base.client
      ensures (base.client.world, err) == Exec(old(base.client.world), DeploymentPlan(lim))
    {
      hide Perform, ActionFor, StorageCheck, DeploymentFields, OptionsOf;
      ghost var before := base.client.world;
      ghost var apply := ActionFor(DeploymentManifest(lim));
      ExecConcat(before, StorageCheck(lim), [apply]);
      var options := GetDeploymentOptions(lim);
      if options.Err? {
        return Some(options.error);
      }
      var deployment := K8sObjects.Deployment(lim, options.value);
      SingleAction(base.client.world, apply);
      err := base.ReconcileResource(deployment);
    }

    method ReconcilePodLimitsHashAnnotation(lim: Limitador) returns (result: RequestResult, err: Option<Error>)
      modifies base.client
      ensures StepOutcome(base.client.world, err, result) == AnnotatePods(old(base.client.world), lim)
    {
      hide Get, ListPods, Perform, ActionFor;
      var listed := base.client.List(lim.namespace, SelectorLabels(LABELS, lim));
      if listed.Err? {
        return DONE, Some(listed.error);
      }
      var pods := listed.value;
      if |pods| == 0 {
        return AGAIN, None;
      }
      if lim.spec.replicas.Some? && |pods| != lim.GetReplicas() {
        return AGAIN, None;
      }
      var cm := base.client.GetObject(ConfigMapKey(lim));
      if cm.Err? {
        if cm.error.NotFound? {
          return AGAIN, None;
        }
        return DONE, Some(cm.error);
      }
      err := PatchPods(pods, cm.value.version);
      return DONE, err;
    }

    /** The loop over the listed pods. */
    method PatchPods(pods: seq<ListedPod>, version: nat) returns (err: Option<Error>)
      modifies base.client
      ensures (base.client.world, err) == Exec(old(base.client.world), PodPlan(pods, version))
    {
      hide Perform, ActionFor;
      ghost var before := base.client.world;
      for idx := 0 to |pods|
        invariant Exec(before, PodPlan(pods, version)) == Exec(base.client.world, PodPlan(pods[idx..], version))
      {
        assert pods[idx..][0] == pods[idx] && pods[idx..][1..] == pods[idx + 1..];
        ghost var rest := PodPlan(pods[idx + 1..], version);
        if PodVersion(pods[idx].state) != Some(Version(version)) {
          ghost var patch := ActionFor(PodPatch(pods[idx].key, version));
          assert PodPlan(pods[idx..], version) == [patch] + rest;
          ExecConcat(base.client.world, [patch], rest);
          SingleAction(base.client.world, patch);
          err := base.ReconcilePodAnnotation(pods[idx].key, version);
          if err.Some? {
            return;
          }
        } else {
          assert PodPlan(pods[idx..], version) == rest;
        }
      }
      return None;
    }

    method ReconcileSpec(lim: Limitador) returns (result: RequestResult, err: Option<Error>)
      modifies base.client
      ensures StepOutcome(base.client.world, err, result) == SpecEffect(old(base.client.world), lim)
    {
      hide Perform, AnnotatePods, ActionFor, ClaimActionFor, DeploymentPlan, Exec;
      ghost var w := base.client.world;
      SpecPlanStages(w, lim);
      err := ReconcileService(lim);
      if err.Some? {
        return DONE, err;
      }
      err := ReconcilePVC(lim);
      if err.Some? {
        return DONE, err;
      }
      err := ReconcileDeployment(lim);
      if err.Some? {
        return DONE, err;
      }
      err := ReconcileLimitsConfigMap(lim);
      if err.Some? {
        return DONE, err;
      }
      err := ReconcilePdb(lim);
      if err.Some? {
        return DONE, err;
      }
      result, err := ReconcilePodLimitsHashAnnotation(lim);
      if err.None? {
        base.client.Record(SpecCompleted(lim.generation));
      }
    }

    method CheckLimitadorAvailable(lim: Limitador) returns (r: Result<Option<string>>)
      modifies base.client
      ensures (base.client.world, r) == CheckAvailable(old(base.client.world), lim)
    {
      hide Get;
      var got := base.client.GetObject(DeploymentKey(lim));
      if got.Err? && !got.error.NotFound? {
        return Err(got.error);
      }
      base.client.Record(CheckedDeployment(if got.Ok? then Some(got.value) else None));
      if got.Err? {
        return Ok(Some(got.error.message));
      }
      var d := got.value;
      if d.status.observedGeneration != d.generation {
        return Ok(Some("Deployment still in progress"));
      }
      var available := FindDeploymentStatusCondition(d.status.conditions, AVAILABLE);
      if available.None? {
        return Ok(Some("Available condition not found"));
      }
      if available.value.status != True {
        return Ok(Some(available.value.message));
      }
      if d.status.unavailableReplicas != 0 {
        return Ok(Some("Deployment has unavailable replicas"));
      }
      if d.status.readyReplicas != d.status.replicas {
        return Ok(Some("Deployment has replicas not ready yet"));
      }
      return Ok(None);
    }

    method MakeReadyCondition(lim: Limitador, specErr: Option<Error>) returns (r: Result<Condition>)
      modifies base.client
      ensures (base.client.world, r) == ReadyCondition(old(base.client.world), lim, specErr)
    {
      hide CheckAvailable;
      var cond := READY_CONDITION;
      if specErr.Some? {
        cond := cond.(status := False, reason := "ReconcilliationError", message := specErr.value.message);
        return Ok(cond);
      }
      var checked := CheckLimitadorAvailable(lim);
      if checked.Err? {
        return Err(checked.error);
      }
      if checked.value.Some? {
        cond := cond.(status := False, reason := "LimitadorNotAvailable", message := checked.value.value);
      }
      return Ok(cond);
    }

    /** `current` is the status as read; it is only copied. */
    method CalculateStatus(lim: Limitador, current: StatusObject, specErr: Option<Error>)
      returns (status: Result<StatusObject>)
      requires current.Value() == lim.status
      modifies base.client
      ensures current.Value() == lim.status
      ensures var ready := ReadyCondition(old(base.client.world), lim, specErr);
        base.client.world == ready.0 &&
        (ready.1.Err? ==> status == Err(ready.1.error)) &&
        (ready.1.Ok? ==> (status.Ok? && fresh(status.value) && fresh(status.value.conditions) &&
                          status.value.Value() == NewStatus(lim, ready.1.value, ready.0.now)))
    {
      hide ReadyCondition;
      var conditions := DeepCopyConditions(current.conditions);
      var service := LimitadorService(ServiceHost(lim), Ports.Ports(lim.HTTPPort(), lim.GRPCPort()));
      var newStatus := new StatusObject(lim.generation, conditions, Some(service));
      var available := MakeReadyCondition(lim, specErr);
      if available.Err? {
        return Err(available.error);
      }
      SetStatusCondition(newStatus, available.value, base.client.world.now);
      return Ok(newStatus);
    }

    method ReconcileStatus(lim: Limitador, specErr: Option<Error>)
      returns (result: RequestResult, err: Option<Error>)
      modifies base.client
      ensures (base.client.world, err) == StatusEffect(old(base.client.world), lim, specErr) && result == DONE
    {
      hide ReadyCondition, NewStatus, PatchStatus, Equals;
      var slice := SliceOf(lim.status.conditions);
      var current := new StatusObject(lim.status.observedGeneration, slice, lim.status.service);
      var newStatus := CalculateStatus(lim, current, specErr);
      if newStatus.Err? {
        return DONE, Some(newStatus.error);
      }
      var equal := StatusEquals(current, newStatus.value);
      if equal && lim.generation == lim.status.observedGeneration {
        return DONE, None;
      }
      var status := newStatus.value;
      var updateErr := base.client.ApplyStatus(
        LimitadorStatus(status.observedGeneration, status.conditions[..], status.service), base.client.world.now);
      if updateErr.Some? {
        return DONE, Some(Failed("failed to update status: " + updateErr.value.message));
      }
      return DONE, None;
    }

    method Reconcile() returns (result: RequestResult, err: Option<Error>)
      modifies base.client
      ensures Outcome(base.client.world, result, err) == ReconcileEffect(old(base.client.world))
    {
      hide GetLimitador, SpecEffect, StatusEffect;
      var got := base.client.GetLimitadorObject();
      if got.Err? {
        if got.error.NotFound? {
          return DONE, None;
        }
        return DONE, Some(got.error);
      }
      var lim := got.value;
      if lim.deleting {
        return DONE, None;
      }
      var specResult, specErr := ReconcileSpec(lim);
      var statusResult, statusErr := ReconcileStatus(lim, specErr);
      if specErr.Some? {
        return DONE, specErr;
      }
      if statusErr.Some? {
        return DONE, statusErr;
      }
      if specResult.requeueAfter > 0 {
        return specResult, None;
      }
      if statusResult.requeueAfter > 0 {
        return statusResult, None;
      }
      return DONE, None;
    }
  }

  method FindDeploymentStatusCondition(cs: seq<DeploymentCondition>, t: string) returns (r: Option<DeploymentCondition>)
    ensures r == FirstCondition(cs, t)
  {
    for i := 0 to |cs|
      invariant FirstCondition(cs, t) == FirstCondition(cs[i..], t)
    {
      if cs[i].conditionType == t {
        return Some(cs[i]);
      }
    }
    return None;
  }

  lemma SingleAction(w: World, a: Action)
    ensures Exec(w, [a]) == Perform(w, a)
  {
    hide Perform;
    var done := Perform(w, a);
    assert [a][1..] == [];
    assert Exec(done.0, []) == (done.0, None);
  }

  lemma FailStops(w: World, message: string)
    ensures Exec(w, [Fail(message)]) == (w, Some(Failed(message)))
  {
    SingleAction(w, Fail(message));
  }

  /** The five steps of the spec, with the abort after each. */
  lemma SpecPlanStages(w: World, lim: Limitador)
    ensures Exec(w, SpecPlan(lim)) ==
      var service := Perform(w, ActionFor(ServiceManifest(lim)));
      if service.1.Some? then service else
      var claim := Perform(service.0, ClaimActionFor(PvcManifest(lim)));
      if claim.1.Some? then claim else
      var deployment := Exec(claim.0, DeploymentPlan(lim));
      if deployment.1.Some? then deployment else
      var limits := Perform(deployment.0, ActionFor(ConfigMapManifest(lim)));
      if limits.1.Some? then limits else
      Perform(limits.0, ActionFor(PdbManifest(lim)))
  {
    hide Perform, ActionFor, ClaimActionFor, DeploymentPlan;
    var service, claim := ActionFor(ServiceManifest(lim)), ClaimActionFor(PvcManifest(lim));
    var limits, pdb := ActionFor(ConfigMapManifest(lim)), ActionFor(PdbManifest(lim));
    var last := [limits, pdb];
    var rest := DeploymentPlan(lim) + last;
    assert SpecPlan(lim) == [service, claim] + rest;
    assert SpecPlan(lim)[1..] == [claim] + rest;
    assert ([claim] + rest)[1..] == rest;
    var w2 := Perform(Perform(w, service).0, claim).0;
    ExecConcat(w2, DeploymentPlan(lim), last);
    var w3 := Exec(w2, DeploymentPlan(lim)).0;
    assert last[1..] == [pdb];
    SingleAction(Perform(w3, limits).0, pdb);
  }
}
