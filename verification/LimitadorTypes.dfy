/** The Limitador custom resource (api/v1alpha1/limitador_types.go). */
module LimitadorTypes {
  import opened Wrappers

  const DEFAULT_SERVICE_HTTP_PORT: int := 8080
  const DEFAULT_SERVICE_GRPC_PORT: int := 8081
  const DEFAULT_REPLICAS: int := 1
  const MAX_INT32: int := 0x7fff_ffff
  const MIN_INT32: int := -0x8000_0000
  const READY := "Ready"

  /** The CRD admits 1 to 4. */
  type VerbosityLevel = v: int | 1 <= v <= 4 witness 1

  datatype Redis = Redis(configSecretRef: Option<string>)

  datatype RedisCachedOptions = RedisCachedOptions(
    flushPeriod: Option<int>, maxCached: Option<int>, responseTimeout: Option<int>, batchSize: Option<int>)

  datatype RedisCached = RedisCached(configSecretRef: Option<string>, options: Option<RedisCachedOptions>)

  datatype PVCGenericSpec = PVCGenericSpec(
    storageClassName: Option<string>, resources: Option<string>, volumeName: Option<string>)

  datatype DiskSpec = DiskSpec(pvc: Option<PVCGenericSpec>, optimize: Option<string>)

  datatype Storage = Storage(redis: Option<Redis>, redisCached: Option<RedisCached>, disk: Option<DiskSpec>)

  datatype TransportProtocol = TransportProtocol(port: Option<int>)
  datatype Listener = Listener(http: Option<TransportProtocol>, grpc: Option<TransportProtocol>)
  datatype Tracing = Tracing(endpoint: string)
  datatype PodDisruptionBudgetType =
    PodDisruptionBudgetType(maxUnavailable: Option<string>, minAvailable: Option<string>)

  /** Affinity, resource requirements and limits are carried already serialised. */
  datatype LimitadorSpec = LimitadorSpec(
    affinity: Option<string>,
    replicas: Option<int>,
    version: Option<string>,
    listener: Option<Listener>,
    storage: Option<Storage>,
    rateLimitHeaders: Option<string>,
    telemetry: Option<string>,
    tracing: Option<Tracing>,
    limits: Option<string>,
    podDisruptionBudget: Option<PodDisruptionBudgetType>,
    resourceRequirements: Option<string>,
    verbosity: Option<VerbosityLevel>,
    image: Option<string>,
    imagePullSecrets: seq<string>,
    metricLabelsDefault: Option<string>)

  datatype ConditionStatus = True | False | Unknown

  /** Times are whole seconds, as in the serialised form; 0 is Go's zero time. */
  datatype Condition = Condition(
    conditionType: string, status: ConditionStatus, observedGeneration: int,
    lastTransitionTime: nat, reason: string, message: string)

  datatype Ports = Ports(http: int, grpc: int)
  datatype LimitadorService = LimitadorService(host: string, ports: Ports)

  datatype LimitadorStatus = LimitadorStatus(
    observedGeneration: int, conditions: seq<Condition>, service: Option<LimitadorService>)

  function Distance(a: int, b: int): nat {
    if a < b then b - a else a - b
  }

  datatype Limitador = Limitador(
    namespace: string, name: string, generation: nat, deleting: bool,
    spec: LimitadorSpec, status: LimitadorStatus)
  {
    function HTTPPort(): int {
      if spec.listener.None? || spec.listener.value.http.None? || spec.listener.value.http.value.port.None?
      then DEFAULT_SERVICE_HTTP_PORT
      else spec.listener.value.http.value.port.value
    }

    function GRPCPort(): int {
      if spec.listener.None? || spec.listener.value.grpc.None? || spec.listener.value.grpc.value.port.None?
      then DEFAULT_SERVICE_GRPC_PORT
      else spec.listener.value.grpc.value.port.value
    }

    /** The int32 nearest to the request: itself when it fits, the near end when it does not; one without a request. */
    function GetReplicas(): (r: int)
      ensures MIN_INT32 <= r <= MAX_INT32
      ensures spec.replicas.None? ==> r == 1
      ensures spec.replicas.Some? ==>
        forall i | MIN_INT32 <= i <= MAX_INT32 && i != r ::
          Distance(spec.replicas.value, r) < Distance(spec.replicas.value, i)
      ensures spec.replicas.Some? && spec.replicas.value < 2 ==> r < 2
    {
      if spec.replicas.None? then DEFAULT_REPLICAS
      else if spec.replicas.value > MAX_INT32 then MAX_INT32
      else if spec.replicas.value < MIN_INT32 then MIN_INT32
      else spec.replicas.value
    }

    function Limits(): string {
      spec.limits.GetOr("[]\n")
    }
  }

  // ---------- validation rules of the CRD ----------

  predicate HasDisk(spec: LimitadorSpec) {
    spec.storage.Some? && spec.storage.value.disk.Some?
  }

  predicate DiskRule(spec: LimitadorSpec) {
    !HasDisk(spec) || (spec.replicas.None? || spec.replicas.value < 2)
  }

  predicate PdbRule(spec: LimitadorSpec) {
    spec.podDisruptionBudget.Some? ==>
      !(spec.podDisruptionBudget.value.maxUnavailable.Some? && spec.podDisruptionBudget.value.minAvailable.Some?)
  }

  predicate Admitted(spec: LimitadorSpec) {
    DiskRule(spec) && PdbRule(spec)
  }
}
