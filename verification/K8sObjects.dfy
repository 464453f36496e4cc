/** From the spec of a Limitador to the objects it asks for
    (pkg/limitador/k8s_objects.go, deployment_options.go and the storage option files). */
module K8sObjects {
  import opened Wrappers
  import opened Text
  import opened Fields
  import opened Objects
  import opened LimitadorTypes
  import opened CommandLine

  const LIMITADOR_REPOSITORY := "quay.io/kuadrant/limitador"
  const DEFAULT_IMAGE := LIMITADOR_REPOSITORY + ":latest"
  const LIMITS_VOLUME := "config-file"
  const LIMITS_MOUNT_PATH := "/home/limitador/etc"
  const DISK_VOLUME := "storage"

  // ---------- names and labels ----------

  function ServiceKey(lim: Limitador): Key {
    Key(Service, lim.namespace, "limitador-" + lim.name)
  }

  function PVCKey(lim: Limitador): Key {
    Key(PersistentVolumeClaim, lim.namespace, "limitador-" + lim.name)
  }

  function DeploymentKey(lim: Limitador): Key {
    Key(Kind.Deployment, lim.namespace, "limitador-" + lim.name)
  }

  function ConfigMapKey(lim: Limitador): Key {
    Key(ConfigMap, lim.namespace, "limitador-limits-config-" + lim.name)
  }

  function PDBKey(lim: Limitador): Key {
    Key(Kind.PodDisruptionBudget, lim.namespace, "limitador-" + lim.name)
  }

  function Children(lim: Limitador): set<Key> {
    {ServiceKey(lim), PVCKey(lim), DeploymentKey(lim), ConfigMapKey(lim), PDBKey(lim)}
  }

  /** The two selector labels as fields below `parent`. */
  function SelectorLabels(parent: Path, lim: Limitador): FieldMap {
    map[At(parent, App) := APP_NAME, At(parent, LimitadorResource) := Text(lim.name)]
  }

  /** All seven labels as fields below `parent`. */
  function Labels(parent: Path, lim: Limitador): FieldMap {
    map[At(parent, App) := APP_NAME,
        At(parent, LimitadorResource) := Text(lim.name),
        At(parent, AppName) := APP_NAME,
        At(parent, AppInstance) := Text(lim.name),
        At(parent, AppComponent) := APP_NAME,
        At(parent, AppManagedBy) := Text("limitador-operator"),
        At(parent, AppPartOf) := Text("kuadrant")]
  }

  /** Labels and controller reference, common to every object the operator writes. */
  function CommonFields(lim: Limitador): FieldMap {
    Labels(LABELS, lim) + map[At(At(METADATA, OwnerReferences), Item(lim.name)) := Struct]
  }

  // ---------- storage choice ----------

  datatype StorageChoice =
    | UseRedis(redis: Redis)
    | UseRedisCached(cached: RedisCached)
    | UseDisk(disk: DiskSpec)
    | UseMemory

  function SelectedStorage(spec: LimitadorSpec): StorageChoice {
    if spec.storage.None? then UseMemory
    else if spec.storage.value.redis.Some? then UseRedis(spec.storage.value.redis.value)
    else if spec.storage.value.redisCached.Some? then UseRedisCached(spec.storage.value.redisCached.value)
    else if spec.storage.value.disk.Some? then UseDisk(spec.storage.value.disk.value)
    else UseMemory
  }

  /** Nil when the chosen storage has no secret, or names none. */
  function SecretRef(s: StorageChoice): Option<string> {
    match s
    case UseRedis(redis) => redis.configSecretRef
    case UseRedisCached(cached) => cached.configSecretRef
    case _ => None
  }

  function StorageCommandOf(s: StorageChoice): StorageCommand {
    match s
    case UseRedis(_) => RedisStorage
    case UseRedisCached(cached) =>
      RedisCachedStorage(cached.options.GetOr(RedisCachedOptions(None, None, None, None)))
    case UseDisk(disk) => DiskStorage(disk.optimize)
    case UseMemory => MemoryStorage
  }

  /** What the container arguments have to say for this resource. */
  function InvocationOf(lim: Limitador): Invocation {
    Invocation(
      lim.spec.rateLimitHeaders,
      lim.spec.telemetry == Some("exhaustive"),
      if lim.spec.tracing.Some? then Some(lim.spec.tracing.value.endpoint) else None,
      if lim.spec.verbosity.Some? then lim.spec.verbosity.value else 0,
      lim.HTTPPort(), lim.GRPCPort(),
      lim.spec.metricLabelsDefault,
      StorageCommandOf(SelectedStorage(lim.spec)))
  }

  // ---------- deployment options ----------

  datatype VolumeMount = VolumeMount(name: string, mountPath: string)
  datatype Volume = Volume(name: string, source: Value)
  datatype EnvVar = EnvVar(name: string, secret: string, key: string)
  datatype DeploymentStrategy = DeploymentStrategy(strategyType: string, rollingUpdate: bool)

  datatype DeploymentStorageOptions = DeploymentStorageOptions(
    args: seq<string>, volumeMounts: seq<VolumeMount>, volumes: seq<Volume>, strategy: DeploymentStrategy)

  datatype DeploymentOptions = DeploymentOptions(
    args: seq<string>, volumeMounts: seq<VolumeMount>, volumes: seq<Volume>, strategy: DeploymentStrategy,
    envVar: seq<EnvVar>, imagePullSecrets: seq<string>)

  const RECREATE := DeploymentStrategy("Recreate", false)
  const ROLLING_UPDATE := DeploymentStrategy("RollingUpdate", true)

  function StorageOptionsOf(lim: Limitador): DeploymentStorageOptions {
    var choice := SelectedStorage(lim.spec);
    if choice.UseDisk? then DiskOptionsOf(lim, choice.disk)
    else DeploymentStorageOptions(PrintStorage(StorageCommandOf(choice)), [], [], ROLLING_UPDATE)
  }

  function DiskOptionsOf(lim: Limitador, disk: DiskSpec): DeploymentStorageOptions {
    DeploymentStorageOptions(PrintStorage(DiskStorage(disk.optimize)), [VolumeMount(DISK_VOLUME, DISK_PATH)],
                             [Volume(DISK_VOLUME, FromClaim(PVCKey(lim).name))], RECREATE)
  }

  function EnvVarOf(choice: StorageChoice): seq<EnvVar> {
    match SecretRef(choice)
    case None => []
    case Some(secret) => [EnvVar(REDIS_URL_VARIABLE, secret, "URL")]
  }

  function OptionsOf(lim: Limitador): DeploymentOptions {
    var storage := StorageOptionsOf(lim);
    DeploymentOptions(
      PrintFlags(InvocationOf(lim)) + storage.args,
      [VolumeMount(LIMITS_VOLUME, LIMITS_MOUNT_PATH)] + storage.volumeMounts,
      [Volume(LIMITS_VOLUME, FromConfigMap(ConfigMapKey(lim).name))] + storage.volumes,
      storage.strategy,
      EnvVarOf(SelectedStorage(lim.spec)),
      lim.spec.imagePullSecrets)
  }

  method DeploymentArgs(lim: Limitador, storageOptions: DeploymentStorageOptions) returns (args: seq<string>)
    ensures args == PrintFlags(InvocationOf(lim)) + storageOptions.args
  {
    args := FlagArgs(GLOBAL_FLAGS, lim);
    args := args + [LIMITS_FILE];
    args := args + storageOptions.args;
  }

  lemma InvocationParts(lim: Limitador)
    ensures var i := InvocationOf(lim); var spec := lim.spec;
      && i.rateLimitHeaders == spec.rateLimitHeaders && i.metricLabelsDefault == spec.metricLabelsDefault
      && (i.limitNameInLabels <==> spec.telemetry.Some? && spec.telemetry.value == "exhaustive")
      && i.tracingEndpoint == (if spec.tracing.Some? then Some(spec.tracing.value.endpoint) else None)
      && i.verbosity == (if spec.verbosity.Some? then spec.verbosity.value else 0)
      && i.httpPort == lim.HTTPPort() && i.rlsPort == lim.GRPCPort()
  {
    hide StorageCommandOf, SelectedStorage, Limitador.HTTPPort, Limitador.GRPCPort;
  }

  method FlagArgs(flags: GlobalFlags, lim: Limitador) returns (args: seq<string>)
    ensures args == ChoiceTokens(flags, InvocationOf(lim)) + PortTokens(flags, InvocationOf(lim))
  {
    hide InvocationOf, Itoa, ChoiceTokens, Limitador.HTTPPort, Limitador.GRPCPort;
    InvocationParts(lim);
    args := ChoiceArgs(flags, lim);
    ghost var choices := args;
    args := args + [flags.httpPort, Itoa(lim.HTTPPort())];
    args := args + [flags.rlsPort, Itoa(lim.GRPCPort())];
    if lim.spec.metricLabelsDefault.Some? {
      args := args + [flags.labels, lim.spec.metricLabelsDefault.value];
    }
    assert args == choices + PortTokens(flags, InvocationOf(lim));
  }

  /** The first four, optional flags. */
  method ChoiceArgs(flags: GlobalFlags, lim: Limitador) returns (args: seq<string>)
    ensures args == ChoiceTokens(flags, InvocationOf(lim))
  {
    hide InvocationOf, Itoa, Repeat, Limitador.HTTPPort, Limitador.GRPCPort;
    ghost var i := InvocationOf(lim);
    InvocationParts(lim);
    args := [];
    if lim.spec.rateLimitHeaders.Some? {
      args := args + [flags.headers, lim.spec.rateLimitHeaders.value];
    }
    assert args == ValueTokens(flags.headers, i.rateLimitHeaders);
    if lim.spec.telemetry.Some? && lim.spec.telemetry.value == "exhaustive" {
      args := args + [flags.exhaustive];
    }
    ghost var named := args;
    assert named == ValueTokens(flags.headers, i.rateLimitHeaders)
                    + if i.limitNameInLabels then [flags.exhaustive] else [];
    if lim.spec.tracing.Some? {
      args := args + [flags.tracing, lim.spec.tracing.value.endpoint];
    }
    assert args == named + ValueTokens(flags.tracing, i.tracingEndpoint);
    if lim.spec.verbosity.Some? {
      args := args + ["-" + Repeat('v', lim.spec.verbosity.value)];
    }
    assert args == ChoiceTokens(flags, i);
  }

  method DeploymentVolumeMounts(storageOptions: DeploymentStorageOptions) returns (mounts: seq<VolumeMount>)
    ensures mounts == [VolumeMount(LIMITS_VOLUME, LIMITS_MOUNT_PATH)] + storageOptions.volumeMounts
  {
    mounts := [VolumeMount(LIMITS_VOLUME, LIMITS_MOUNT_PATH)];
    mounts := mounts + storageOptions.volumeMounts;
  }

  method DeploymentVolumes(lim: Limitador, storageOptions: DeploymentStorageOptions) returns (volumes: seq<Volume>)
    ensures volumes == [Volume(LIMITS_VOLUME, FromConfigMap(ConfigMapKey(lim).name))] + storageOptions.volumes
  {
    volumes := [Volume(LIMITS_VOLUME, FromConfigMap(ConfigMapKey(lim).name))];
    volumes := volumes + storageOptions.volumes;
  }

  /** The printing half of RedisCachedDeploymentOptions. */
  method RedisCachedArgs(cached: RedisCached) returns (command: seq<string>)
    ensures command == PrintStorage(StorageCommandOf(UseRedisCached(cached)))
    ensures ParseStorage(command) ==
      Some(RedisCachedStorage(cached.options.GetOr(RedisCachedOptions(None, None, None, None))))
  {
    hide ParseStorage;
    CachedStorageRoundTrip(cached.options.GetOr(RedisCachedOptions(None, None, None, None)));
    command := ["redis_cached", REDIS_URL];
    if cached.options.Some? {
      var options := cached.options.value;
      if options.flushPeriod.Some? {
        command := command + ["--flush-period", Itoa(options.flushPeriod.value)];
      }
      if options.maxCached.Some? {
        command := command + ["--max-cached", Itoa(options.maxCached.value)];
      }
      if options.responseTimeout.Some? {
        command := command + ["--response-timeout", Itoa(options.responseTimeout.value)];
      }
      if options.batchSize.Some? {
        command := command + ["--batch-size", Itoa(options.batchSize.value)];
      }
    }
  }

  method DiskDeploymentOptions(lim: Limitador, disk: DiskSpec) returns (options: DeploymentStorageOptions)
    ensures options == DiskOptionsOf(lim, disk)
    ensures ParseStorage(options.args) == Some(DiskStorage(disk.optimize))
  {
    hide ParseStorage;
    StorageRoundTrip(DiskStorage(disk.optimize));
    var command := ["disk"];
    if disk.optimize.Some? {
      command := command + ["--optimize", disk.optimize.value];
    }
    command := command + [DISK_PATH];
    options := DeploymentStorageOptions(command, [VolumeMount(DISK_VOLUME, DISK_PATH)],
                                        [Volume(DISK_VOLUME, FromClaim(PVCKey(lim).name))], RECREATE);
  }

  // ---------- the five objects ----------

  /** A headless service on the two ports. */
  function ServicePorts(lim: Limitador): FieldMap {
    map[At(At(SPEC, Segment.Ports), HttpPort) := Number(lim.HTTPPort()),
        At(At(SPEC, Segment.Ports), GrpcPort) := Number(lim.GRPCPort()),
        At(SPEC, ClusterIP) := Text("None"),
        At(SPEC, Type) := Text("ClusterIP")]
  }

  function ServiceManifest(lim: Limitador): Manifest {
    Manifest(ServiceKey(lim), None,
      CommonFields(lim) + SelectorLabels(At(SPEC, Selector), lim) + ServicePorts(lim))
  }

  function ConfigMapManifest(lim: Limitador): Manifest {
    Manifest(ConfigMapKey(lim), None,
      CommonFields(lim) + map[At(At(Root, Data), LimitsFile) := Opaque(lim.Limits())])
  }

  const MAX_UNAVAILABLE := At(SPEC, MaxUnavailable)
  const MIN_AVAILABLE := At(SPEC, MinAvailable)

  function OptionalField(p: Path, v: Option<string>): FieldMap {
    if v.None? then map[] else map[p := Opaque(v.value)]
  }

  function PdbBase(lim: Limitador): Manifest {
    Manifest(PDBKey(lim), None, CommonFields(lim) + SelectorLabels(At(SPEC, Selector), lim))
  }

  function PdbManifest(lim: Limitador): Manifest {
    var pdb := PdbBase(lim);
    match lim.spec.podDisruptionBudget
    case None => Tagged(pdb)
    case Some(b) => pdb.(fields := pdb.fields + OptionalField(MAX_UNAVAILABLE, b.maxUnavailable)
                                              + OptionalField(MIN_AVAILABLE, b.minAvailable))
  }

  const STORAGE_REQUEST := At(SPEC, Resources)
  const DEFAULT_CLAIM_SIZE := "1Gi"

  function ClaimDefaults(): FieldMap {
    map[At(SPEC, AccessModes) := Texts(["ReadWriteOnce"]), STORAGE_REQUEST := Opaque(DEFAULT_CLAIM_SIZE)]
  }

  function PvcBase(lim: Limitador): Manifest {
    Manifest(PVCKey(lim), None, CommonFields(lim) + ClaimDefaults())
  }

  function ClaimFields(pvc: PVCGenericSpec): FieldMap {
    OptionalField(At(SPEC, StorageClassName), pvc.storageClassName)
    + OptionalField(At(SPEC, VolumeName), pvc.volumeName)
    + OptionalField(STORAGE_REQUEST, pvc.resources)
  }

  function PvcManifest(lim: Limitador): Manifest {
    var pvc := PvcBase(lim);
    if !HasDisk(lim.spec) then Tagged(pvc)
    else
      match lim.spec.storage.value.disk.value.pvc
      case None => pvc
      case Some(p) => pvc.(fields := pvc.fields + ClaimFields(p))
  }

  method PodDisruptionBudget(lim: Limitador) returns (pdb: ClientObject)
    ensures fresh(pdb) && pdb.Value() == PdbManifest(lim)
  {
    pdb := new ClientObject(PDBKey(lim), None, CommonFields(lim) + SelectorLabels(At(SPEC, Selector), lim));
    if lim.spec.podDisruptionBudget.None? {
      TagObjectToDelete(pdb);
      return;
    }
    pdb.fields := pdb.fields + OptionalField(MAX_UNAVAILABLE, lim.spec.podDisruptionBudget.value.maxUnavailable);
    pdb.fields := pdb.fields + OptionalField(MIN_AVAILABLE, lim.spec.podDisruptionBudget.value.minAvailable);
  }

  method PVC(lim: Limitador) returns (pvc: ClientObject)
    ensures fresh(pvc) && pvc.Value() == PvcManifest(lim)
  {
    pvc := new ClientObject(PVCKey(lim), None, CommonFields(lim) + ClaimDefaults());
    if lim.spec.storage.None? || lim.spec.storage.value.disk.None? {
      TagObjectToDelete(pvc);
      return;
    }
    var claim := lim.spec.storage.value.disk.value.pvc;
    if claim.Some? {
      AssignClaim(pvc, claim.value);
    }
  }

  method AssignClaim(pvc: ClientObject, claim: PVCGenericSpec)
    modifies pvc`fields
    ensures pvc.fields == old(pvc.fields) + ClaimFields(claim)
  {
    pvc.fields := pvc.fields + OptionalField(At(SPEC, StorageClassName), claim.storageClassName);
    if claim.volumeName.Some? {
      pvc.fields := pvc.fields[At(SPEC, VolumeName) := Opaque(claim.volumeName.value)];
    }
    if claim.resources.Some? {
      pvc.fields := pvc.fields[STORAGE_REQUEST := Opaque(claim.resources.value)];
    }
  }

  // ---------- the deployment ----------

  const STRATEGY := At(SPEC, Strategy)
  const STRATEGY_TYPE := At(STRATEGY, Type)
  const ROLLING_UPDATE_FIELD := At(STRATEGY, RollingUpdate)
  const REPLICAS := At(SPEC, Replicas)
  const TEMPLATE := At(SPEC, Template)
  const CONTAINER := At(TEMPLATE, Container)

  function MountFields(mounts: seq<VolumeMount>): (r: FieldMap)
    ensures forall p | p in r :: p.At? && p.parent == At(CONTAINER, VolumeMounts)
  {
    if mounts == [] then map[]
    else MountFields(mounts[..|mounts| - 1])[
      At(At(CONTAINER, VolumeMounts), Item(mounts[|mounts| - 1].mountPath)) := MountOf(mounts[|mounts| - 1].name)]
  }

  function VolumeFields(volumes: seq<Volume>): (r: FieldMap)
    ensures forall p | p in r :: p.At? && p.parent == At(TEMPLATE, Volumes)
  {
    if volumes == [] then map[]
    else VolumeFields(volumes[..|volumes| - 1])[
      At(At(TEMPLATE, Volumes), Item(volumes[|volumes| - 1].name)) := volumes[|volumes| - 1].source]
  }

  function EnvFields(env: seq<EnvVar>): (r: FieldMap)
    ensures forall p | p in r :: p.At? && p.parent == At(CONTAINER, Env)
  {
    if env == [] then map[]
    else EnvFields(env[..|env| - 1])[
      At(At(CONTAINER, Env), Item(env[|env| - 1].name)) := SecretKey(env[|env| - 1].secret, env[|env| - 1].key)]
  }

  function ImageOf(lim: Limitador): string {
    if lim.spec.image.Some? then lim.spec.image.value
    else if lim.spec.version.Some? then LIMITADOR_REPOSITORY + ":" + lim.spec.version.value
    else DEFAULT_IMAGE
  }

  function StrategyFields(s: DeploymentStrategy): FieldMap {
    map[STRATEGY_TYPE := Text(s.strategyType)] + if s.rollingUpdate then map[ROLLING_UPDATE_FIELD := Struct] else map[]
  }

  function ContainerBase(lim: Limitador, image: string, args: seq<string>): FieldMap {
    map[At(CONTAINER, Image) := Text(image),
        At(CONTAINER, Command) := Texts(["limitador-server"]),
        At(CONTAINER, Args) := Texts(args),
        At(At(CONTAINER, Segment.Ports), HttpPort) := Number(lim.HTTPPort()),
        At(At(CONTAINER, Segment.Ports), GrpcPort) := Number(lim.GRPCPort()),
        At(CONTAINER, LivenessProbe) := Number(lim.HTTPPort()),
        At(CONTAINER, ReadinessProbe) := Number(lim.HTTPPort()),
        At(CONTAINER, Resources) := Opaque(lim.spec.resourceRequirements.GetOr("default")),
        At(CONTAINER, ImagePullPolicy) := Text("IfNotPresent")]
  }

  function ContainerFields(lim: Limitador, image: string, o: DeploymentOptions): FieldMap {
    ContainerBase(lim, image, o.args) + EnvFields(o.envVar) + MountFields(o.volumeMounts)
  }

  function TemplateFields(lim: Limitador, o: DeploymentOptions): FieldMap {
    Labels(At(TEMPLATE, Segment.Labels), lim)
    + OptionalField(At(TEMPLATE, Affinity), lim.spec.affinity)
    + (if o.imagePullSecrets == [] then map[] else map[At(TEMPLATE, ImagePullSecrets) := Texts(o.imagePullSecrets)])
    + VolumeFields(o.volumes)
  }

  function DeploymentFields(lim: Limitador, image: string, o: DeploymentOptions): FieldMap {
    CommonFields(lim)
    + SelectorLabels(At(SPEC, Selector), lim)
    + TemplateFields(lim, o)
    + ContainerFields(lim, image, o)
    + StrategyFields(o.strategy)
    + map[REPLICAS := Number(lim.GetReplicas())]
  }

  function DeploymentManifest(lim: Limitador): Manifest {
    Manifest(DeploymentKey(lim), None, DeploymentFields(lim, ImageOf(lim), OptionsOf(lim)))
  }

  method Deployment(lim: Limitador, options: DeploymentOptions) returns (d: ClientObject)
    ensures fresh(d)
    ensures d.Value() == Manifest(DeploymentKey(lim), None, DeploymentFields(lim, ImageOf(lim), options))
  {
    var image := DEFAULT_IMAGE;
    if lim.spec.version.Some? {
      image := LIMITADOR_REPOSITORY + ":" + lim.spec.version.value;
    }
    if lim.spec.image.Some? {
      image := lim.spec.image.value;
    }
    d := new ClientObject(DeploymentKey(lim), None, DeploymentFields(lim, image, options));
  }

  // ---------- what every object of the operator has in common ----------

  /** Labelled as an object of the operator, and without the delete tag. */
  ghost predicate WellMade(fields: FieldMap) {
    && NoRoot(fields) && DELETE_TAG !in fields
    && APP_LABEL in fields && fields[APP_LABEL] == APP_NAME
  }

  ghost predicate Plain(fields: FieldMap) {
    Root !in fields && DELETE_TAG !in fields && APP_LABEL !in fields
  }

  lemma WellMadeWith(fields: FieldMap, more: FieldMap)
    requires WellMade(fields) && Plain(more)
    ensures WellMade(fields + more)
  {
  }

  lemma PlainWith(fields: FieldMap, more: FieldMap)
    requires Plain(fields) && Plain(more)
    ensures Plain(fields + more)
  {
  }

  lemma CommonWellMade(lim: Limitador)
    ensures WellMade(CommonFields(lim)) && Plain(SelectorLabels(At(SPEC, Selector), lim))
    ensures WellMade(CommonFields(lim) + SelectorLabels(At(SPEC, Selector), lim))
  {
    hide APP_NAME;
  }

  lemma OptionalPlain(p: Path, v: Option<string>)
    requires p != Root && p != DELETE_TAG && p != APP_LABEL
    ensures Plain(OptionalField(p, v))
  {
  }

  lemma PartsPlain(lim: Limitador)
    ensures Plain(ServicePorts(lim)) && Plain(ClaimDefaults())
  {
  }

  lemma ServiceWellMade(lim: Limitador)
    ensures !IsTagged(ServiceManifest(lim)) && WellMade(ServiceManifest(lim).Desired())
  {
    hide WellMade, CommonFields, SelectorLabels, ServicePorts, Plain;
    UntaggedDesired(ServiceManifest(lim));
    CommonWellMade(lim);
    PartsPlain(lim);
    WellMadeWith(CommonFields(lim) + SelectorLabels(At(SPEC, Selector), lim), ServicePorts(lim));
  }

  lemma ConfigMapWellMade(lim: Limitador)
    ensures !IsTagged(ConfigMapManifest(lim)) && WellMade(ConfigMapManifest(lim).Desired())
  {
    hide WellMade, CommonFields;
    UntaggedDesired(ConfigMapManifest(lim));
    CommonWellMade(lim);
    WellMadeWith(CommonFields(lim), map[At(At(Root, Data), LimitsFile) := Opaque(lim.Limits())]);
  }

  /** The budget is wanted exactly when the resource has one, and is tagged for deletion otherwise. */
  lemma PdbWellMade(lim: Limitador)
    ensures IsTagged(PdbManifest(lim)) <==> lim.spec.podDisruptionBudget.None?
    ensures !IsTagged(PdbManifest(lim)) ==> WellMade(PdbManifest(lim).Desired())
  {
    hide WellMade, CommonFields, SelectorLabels, OptionalField, Plain;
    if lim.spec.podDisruptionBudget.Some? {
      var b := lim.spec.podDisruptionBudget.value;
      UntaggedDesired(PdbManifest(lim));
      CommonWellMade(lim);
      OptionalPlain(MAX_UNAVAILABLE, b.maxUnavailable);
      OptionalPlain(MIN_AVAILABLE, b.minAvailable);
      WellMadeWith(PdbBase(lim).fields, OptionalField(MAX_UNAVAILABLE, b.maxUnavailable));
      WellMadeWith(PdbBase(lim).fields + OptionalField(MAX_UNAVAILABLE, b.maxUnavailable),
                   OptionalField(MIN_AVAILABLE, b.minAvailable));
    }
  }

  lemma ClaimPlain(pvc: PVCGenericSpec)
    ensures Plain(ClaimFields(pvc))
  {
    hide OptionalField, Plain;
    var storageClass := OptionalField(At(SPEC, StorageClassName), pvc.storageClassName);
    var volume := OptionalField(At(SPEC, VolumeName), pvc.volumeName);
    OptionalPlain(At(SPEC, StorageClassName), pvc.storageClassName);
    OptionalPlain(At(SPEC, VolumeName), pvc.volumeName);
    OptionalPlain(STORAGE_REQUEST, pvc.resources);
    PlainWith(storageClass, volume);
    PlainWith(storageClass + volume, OptionalField(STORAGE_REQUEST, pvc.resources));
  }

  /** The claim is wanted exactly when the resource has disk storage, selected or not. */
  lemma PvcWellMade(lim: Limitador)
    ensures IsTagged(PvcManifest(lim)) <==> lim.spec.storage.None? || lim.spec.storage.value.disk.None?
    ensures !IsTagged(PvcManifest(lim)) ==> WellMade(PvcManifest(lim).Desired())
  {
    hide WellMade, CommonFields, ClaimFields, ClaimDefaults, Plain;
    if HasDisk(lim.spec) {
      UntaggedDesired(PvcManifest(lim));
      CommonWellMade(lim);
      PartsPlain(lim);
      WellMadeWith(CommonFields(lim), ClaimDefaults());
      if lim.spec.storage.value.disk.value.pvc.Some? {
        ClaimPlain(lim.spec.storage.value.disk.value.pvc.value);
        WellMadeWith(PvcBase(lim).fields, ClaimFields(lim.spec.storage.value.disk.value.pvc.value));
      }
    }
  }

  lemma TemplatePlain(lim: Limitador, o: DeploymentOptions)
    ensures Plain(TemplateFields(lim, o))
  {
    hide VolumeFields, OptionalField, Plain, APP_NAME;
    var labels := Labels(At(TEMPLATE, Segment.Labels), lim);
    LabelsPlain(lim);
    OptionalPlain(At(TEMPLATE, Affinity), lim.spec.affinity);
    PlainWith(labels, OptionalField(At(TEMPLATE, Affinity), lim.spec.affinity));
    var secrets: FieldMap :=
      if o.imagePullSecrets == [] then map[] else map[At(TEMPLATE, ImagePullSecrets) := Texts(o.imagePullSecrets)];
    SecretsPlain(o.imagePullSecrets);
    PlainWith(labels + OptionalField(At(TEMPLATE, Affinity), lim.spec.affinity), secrets);
    ListFieldsPlain(o.envVar, o.volumeMounts, o.volumes);
    PlainWith(labels + OptionalField(At(TEMPLATE, Affinity), lim.spec.affinity) + secrets, VolumeFields(o.volumes));
  }

  lemma LabelsPlain(lim: Limitador)
    ensures Plain(Labels(At(TEMPLATE, Segment.Labels), lim))
  {
  }

  lemma SecretsPlain(secrets: seq<string>)
    ensures Plain(map[At(TEMPLATE, ImagePullSecrets) := Texts(secrets)]) && Plain(map[])
  {
  }

  lemma ContainerBasePlain(lim: Limitador, image: string, args: seq<string>)
    ensures Plain(ContainerBase(lim, image, args)) && OffStrategy(ContainerBase(lim, image, args))
  {
  }

  lemma ListFieldsPlain(env: seq<EnvVar>, mounts: seq<VolumeMount>, volumes: seq<Volume>)
    ensures Plain(EnvFields(env)) && Plain(MountFields(mounts)) && Plain(VolumeFields(volumes))
    ensures OffStrategy(EnvFields(env)) && OffStrategy(MountFields(mounts)) && OffStrategy(VolumeFields(volumes))
  {
    hide EnvFields, MountFields, VolumeFields;
  }

  lemma ContainerPlain(lim: Limitador, image: string, o: DeploymentOptions)
    ensures Plain(ContainerFields(lim, image, o))
  {
    hide EnvFields, MountFields, ContainerBase, Plain;
    ContainerBasePlain(lim, image, o.args);
    ListFieldsPlain(o.envVar, o.volumeMounts, o.volumes);
    PlainWith(ContainerBase(lim, image, o.args), EnvFields(o.envVar));
    PlainWith(ContainerBase(lim, image, o.args) + EnvFields(o.envVar), MountFields(o.volumeMounts));
  }

  lemma StrategyPlain(s: DeploymentStrategy)
    ensures Plain(StrategyFields(s))
  {
  }

  /** Whatever image and options the Deployment is built from. */
  lemma AnyDeploymentWellMade(lim: Limitador, image: string, o: DeploymentOptions)
    ensures var m := Manifest(DeploymentKey(lim), None, DeploymentFields(lim, image, o));
      !IsTagged(m) && WellMade(m.Desired())
  {
    hide WellMade, CommonFields, SelectorLabels, TemplateFields, ContainerFields, StrategyFields;
    UntaggedDesired(Manifest(DeploymentKey(lim), None, DeploymentFields(lim, image, o)));
    CommonWellMade(lim);
    TemplatePlain(lim, o);
    ContainerPlain(lim, image, o);
    StrategyPlain(o.strategy);
    var base := CommonFields(lim) + SelectorLabels(At(SPEC, Selector), lim);
    WellMadeWith(base, TemplateFields(lim, o));
    WellMadeWith(base + TemplateFields(lim, o), ContainerFields(lim, image, o));
    WellMadeWith(base + TemplateFields(lim, o) + ContainerFields(lim, image, o), StrategyFields(o.strategy));
    WellMadeWith(base + TemplateFields(lim, o) + ContainerFields(lim, image, o) + StrategyFields(o.strategy),
                 map[REPLICAS := Number(lim.GetReplicas())]);
  }

  lemma DeploymentWellMade(lim: Limitador)
    ensures !IsTagged(DeploymentManifest(lim)) && WellMade(DeploymentManifest(lim).Desired())
  {
    hide OptionsOf, ImageOf, WellMade, DeploymentFields;
    AnyDeploymentWellMade(lim, ImageOf(lim), OptionsOf(lim));
  }

  // ---------- storage and the deployment ----------

  /** Every mount of the deployment names one of its volumes. */
  lemma MountsNameVolumes(lim: Limitador)
    ensures forall m | m in OptionsOf(lim).volumeMounts :: exists v :: v in OptionsOf(lim).volumes && v.name == m.name
  {
    var o := OptionsOf(lim);
    assert o.volumes[0] in o.volumes;
    if SelectedStorage(lim.spec).UseDisk? {
      assert o.volumes[1] in o.volumes;
    }
  }

  ghost predicate OffStrategy(fields: FieldMap) {
    ROLLING_UPDATE_FIELD !in fields && REPLICAS !in fields
  }

  lemma CommonOffStrategy(lim: Limitador)
    ensures OffStrategy(CommonFields(lim)) && OffStrategy(SelectorLabels(At(SPEC, Selector), lim))
  {
    hide APP_NAME;
  }

  lemma OffStrategyWith(a: FieldMap, b: FieldMap)
    requires OffStrategy(a) && OffStrategy(b)
    ensures OffStrategy(a + b)
  {
  }

  lemma TemplatePartsOffStrategy(lim: Limitador, o: DeploymentOptions)
    ensures OffStrategy(Labels(At(TEMPLATE, Segment.Labels), lim))
    ensures OffStrategy(OptionalField(At(TEMPLATE, Affinity), lim.spec.affinity))
    ensures OffStrategy(map[At(TEMPLATE, ImagePullSecrets) := Texts(o.imagePullSecrets)]) && OffStrategy(map[])
  {
    hide APP_NAME;
  }

  lemma TemplateOffStrategy(lim: Limitador, o: DeploymentOptions)
    ensures OffStrategy(TemplateFields(lim, o))
  {
    hide APP_NAME, VolumeFields, Labels, OptionalField, OffStrategy;
    TemplatePartsOffStrategy(lim, o);
    ListFieldsPlain(o.envVar, o.volumeMounts, o.volumes);
    var labels := Labels(At(TEMPLATE, Segment.Labels), lim);
    var affinity := OptionalField(At(TEMPLATE, Affinity), lim.spec.affinity);
    var secrets: FieldMap :=
      if o.imagePullSecrets == [] then map[] else map[At(TEMPLATE, ImagePullSecrets) := Texts(o.imagePullSecrets)];
    OffStrategyWith(labels, affinity);
    OffStrategyWith(labels + affinity, secrets);
    OffStrategyWith(labels + affinity + secrets, VolumeFields(o.volumes));
  }

  lemma ContainerOffStrategy(lim: Limitador, image: string, o: DeploymentOptions)
    ensures OffStrategy(ContainerFields(lim, image, o))
  {
    hide EnvFields, MountFields, ContainerBase, OffStrategy;
    ContainerBasePlain(lim, image, o.args);
    ListFieldsPlain(o.envVar, o.volumeMounts, o.volumes);
    OffStrategyWith(ContainerBase(lim, image, o.args), EnvFields(o.envVar));
    OffStrategyWith(ContainerBase(lim, image, o.args) + EnvFields(o.envVar), MountFields(o.volumeMounts));
  }

  lemma StrategyInDeployment(lim: Limitador, image: string, o: DeploymentOptions)
    ensures STRATEGY_TYPE in DeploymentFields(lim, image, o)
    ensures DeploymentFields(lim, image, o)[STRATEGY_TYPE] == Text(o.strategy.strategyType)
    ensures ROLLING_UPDATE_FIELD in DeploymentFields(lim, image, o) <==> o.strategy.rollingUpdate
    ensures REPLICAS in DeploymentFields(lim, image, o)
    ensures DeploymentFields(lim, image, o)[REPLICAS] == Number(lim.GetReplicas())
  {
    hide CommonFields, SelectorLabels, TemplateFields, ContainerFields;
    CommonOffStrategy(lim);
    TemplateOffStrategy(lim, o);
    ContainerOffStrategy(lim, image, o);
  }

  /** Disk is set and neither Redis storage, each of which would win. */
  predicate DiskSelected(spec: LimitadorSpec) {
    && spec.storage.Some? && spec.storage.value.disk.Some?
    && spec.storage.value.redis.None? && spec.storage.value.redisCached.None?
  }

  lemma ChoiceOfStrategy(lim: Limitador)
    ensures OptionsOf(lim).strategy ==
      if DiskSelected(lim.spec) then RECREATE else ROLLING_UPDATE
    ensures RECREATE == DeploymentStrategy("Recreate", false)
    ensures ROLLING_UPDATE == DeploymentStrategy("RollingUpdate", true)
  {
    hide PrintFlags, PrintStorage;
  }

  lemma ClaimMounted(lim: Limitador)
    ensures Volume(DISK_VOLUME, FromClaim(PVCKey(lim).name)) in OptionsOf(lim).volumes <==> DiskSelected(lim.spec)
  {
    hide PrintFlags, PrintStorage;
    var o := OptionsOf(lim);
    if SelectedStorage(lim.spec).UseDisk? {
      assert o.volumes[1] == Volume(DISK_VOLUME, FromClaim(PVCKey(lim).name));
    } else {
      assert |o.volumes| == 1 && o.volumes[0].source.FromConfigMap?;
    }
  }

  /** The Deployment is recreated exactly when disk is the selected storage, and rolled over otherwise; with the disk,
      the CRD rule leaves at most one replica and the mounted claim is the one the operator provides. */
  lemma DiskMeansSingleWriter(lim: Limitador)
    requires Admitted(lim.spec)
    ensures var disk := DiskSelected(lim.spec); var d := DeploymentManifest(lim).Desired();
      && STRATEGY_TYPE in d && d[STRATEGY_TYPE] == Text(if disk then "Recreate" else "RollingUpdate")
      && (ROLLING_UPDATE_FIELD in d <==> !disk)
      && (Volume(DISK_VOLUME, FromClaim(PVCKey(lim).name)) in OptionsOf(lim).volumes <==> disk)
      && REPLICAS in d && d[REPLICAS] == Number(lim.GetReplicas())
      && (disk ==> lim.GetReplicas() <= 1 && !IsTagged(PvcManifest(lim)))
  {
    hide OptionsOf, STRATEGY, ImageOf, PvcManifest, DeploymentFields;
    UntaggedDesired(DeploymentManifest(lim));
    PvcWellMade(lim);
    StrategyInDeployment(lim, ImageOf(lim), OptionsOf(lim));
    ChoiceOfStrategy(lim);
    ClaimMounted(lim);
  }

  /** The claim is provided without being mounted exactly when disk storage is set next to a Redis storage,
      which wins. */
  lemma ClaimWithoutMount(lim: Limitador)
    ensures !IsTagged(PvcManifest(lim)) && Volume(DISK_VOLUME, FromClaim(PVCKey(lim).name)) !in OptionsOf(lim).volumes
       <==> lim.spec.storage.Some? && lim.spec.storage.value.disk.Some?
              && (lim.spec.storage.value.redis.Some? || lim.spec.storage.value.redisCached.Some?)
  {
    hide PvcManifest, OptionsOf, IsTagged;
    PvcWellMade(lim);
    ClaimMounted(lim);
  }

  /** The arguments say exactly what the resource asks for; the Redis URL variable is bound, to the URL key of the
      secret named by the selected storage, exactly when that storage names one. */
  lemma ArgumentsAndEnvironment(lim: Limitador)
    ensures Parse(OptionsOf(lim).args) == Some(InvocationOf(lim))
    ensures var choice := SelectedStorage(lim.spec); forall e ::
      e in OptionsOf(lim).envVar <==>
        SecretRef(choice).Some? && e == EnvVar(REDIS_URL_VARIABLE, SecretRef(choice).value, "URL")
    ensures SecretRef(SelectedStorage(lim.spec)).Some? ==>
      InvocationOf(lim).storage.RedisStorage? || InvocationOf(lim).storage.RedisCachedStorage?
  {
    hide PrintFlags, PrintStorage, Parse;
    ArgumentsRoundTrip(InvocationOf(lim));
    assert OptionsOf(lim).args == Print(InvocationOf(lim));
  }
}
