/** The five objects, the arguments and the status fit together: one pair of ports, one set of selecting labels, one
    limits file, and the user's budget and claim where they belong. */
module Consistency {
  import opened Wrappers
  import opened Fields
  import opened Objects
  import opened LimitadorTypes
  import opened K8sObjects
  import CommandLine
  import Controller

  predicate Has(fields: FieldMap, p: Path, v: Value) {
    p in fields && fields[p] == v
  }

  lemma HasLater(a: FieldMap, b: FieldMap, p: Path, v: Value)
    requires Has(b, p, v) || (Has(a, p, v) && p !in b)
    ensures Has(a + b, p, v)
  {
  }

  // ---------- where the fields of the Deployment come from ----------

  lemma ContainerInDeployment(lim: Limitador, image: string, o: DeploymentOptions, p: Path, v: Value)
    requires Has(ContainerFields(lim, image, o), p, v) && !InStrategy(p)
    ensures Has(DeploymentFields(lim, image, o), p, v)
  {
    hide CommonFields, SelectorLabels, TemplateFields, ContainerFields;
  }

  predicate InStrategy(p: Path) {
    p == REPLICAS || p == STRATEGY_TYPE || p == ROLLING_UPDATE_FIELD
  }

  lemma BaseInDeployment(lim: Limitador, image: string, o: DeploymentOptions, p: Path, v: Value)
    requires Has(ContainerBase(lim, image, o.args), p, v)
    requires p.At? && p.parent in {CONTAINER, At(CONTAINER, Segment.Ports)}
    ensures Has(DeploymentFields(lim, image, o), p, v)
  {
    hide EnvFields, MountFields, DeploymentFields, ContainerBase;
    var base := ContainerBase(lim, image, o.args);
    HasLater(base, EnvFields(o.envVar), p, v);
    HasLater(base + EnvFields(o.envVar), MountFields(o.volumeMounts), p, v);
    ContainerInDeployment(lim, image, o, p, v);
  }

  lemma MountInDeployment(lim: Limitador, image: string, o: DeploymentOptions, p: Path, v: Value)
    requires Has(MountFields(o.volumeMounts), p, v)
    ensures Has(DeploymentFields(lim, image, o), p, v)
  {
    hide EnvFields, MountFields, DeploymentFields, ContainerBase;
    HasLater(ContainerBase(lim, image, o.args) + EnvFields(o.envVar), MountFields(o.volumeMounts), p, v);
    ContainerInDeployment(lim, image, o, p, v);
  }

  lemma TemplateInDeployment(lim: Limitador, image: string, o: DeploymentOptions, p: Path, v: Value)
    requires Has(TemplateFields(lim, o), p, v) && p.At?
    requires p.parent in {At(TEMPLATE, Segment.Labels), At(TEMPLATE, Volumes)}
    ensures Has(DeploymentFields(lim, image, o), p, v)
  {
    hide CommonFields, SelectorLabels, TemplateFields, ContainerFields;
    NotContainer(lim, image, o, p);
  }

  lemma NotContainer(lim: Limitador, image: string, o: DeploymentOptions, p: Path)
    requires p.At? && p.parent in {At(TEMPLATE, Segment.Labels), At(TEMPLATE, Volumes)}
    ensures p !in ContainerFields(lim, image, o)
  {
    hide EnvFields, MountFields, ContainerBase;
    BaseParents(lim, image, o.args);
  }

  lemma BaseParents(lim: Limitador, image: string, args: seq<string>)
    ensures forall p | p in ContainerBase(lim, image, args) ::
      p.At? && p.parent in {CONTAINER, At(CONTAINER, Segment.Ports)}
  {
    hide Limitador.HTTPPort, Limitador.GRPCPort;
  }

  // ---------- ports ----------

  predicate ContainerPorts(d: FieldMap, http: int, grpc: int) {
    && Has(d, At(At(CONTAINER, Segment.Ports), HttpPort), Number(http))
    && Has(d, At(At(CONTAINER, Segment.Ports), GrpcPort), Number(grpc))
    && Has(d, At(CONTAINER, LivenessProbe), Number(http))
    && Has(d, At(CONTAINER, ReadinessProbe), Number(http))
  }

  predicate ForwardedPorts(s: FieldMap, http: int, grpc: int) {
    && Has(s, At(At(SPEC, Segment.Ports), HttpPort), Number(http))
    && Has(s, At(At(SPEC, Segment.Ports), GrpcPort), Number(grpc))
  }

  lemma BasePorts(lim: Limitador, image: string, args: seq<string>)
    ensures ContainerPorts(ContainerBase(lim, image, args), lim.HTTPPort(), lim.GRPCPort())
    ensures Has(ContainerBase(lim, image, args), At(CONTAINER, Args), Texts(args))
  {
    hide Limitador.HTTPPort, Limitador.GRPCPort;
  }

  lemma DeploymentPorts(lim: Limitador, image: string, o: DeploymentOptions)
    ensures ContainerPorts(DeploymentFields(lim, image, o), lim.HTTPPort(), lim.GRPCPort())
    ensures Has(DeploymentFields(lim, image, o), At(CONTAINER, Args), Texts(o.args))
  {
    hide DeploymentFields, ContainerBase, Has, Limitador.HTTPPort, Limitador.GRPCPort;
    BasePorts(lim, image, o.args);
    var http, grpc := Number(lim.HTTPPort()), Number(lim.GRPCPort());
    BaseInDeployment(lim, image, o, At(CONTAINER, Args), Texts(o.args));
    BaseInDeployment(lim, image, o, At(At(CONTAINER, Segment.Ports), HttpPort), http);
    BaseInDeployment(lim, image, o, At(At(CONTAINER, Segment.Ports), GrpcPort), grpc);
    BaseInDeployment(lim, image, o, At(CONTAINER, LivenessProbe), http);
    BaseInDeployment(lim, image, o, At(CONTAINER, ReadinessProbe), http);
  }

  lemma ServiceForwards(lim: Limitador)
    ensures ForwardedPorts(ServiceManifest(lim).Desired(), lim.HTTPPort(), lim.GRPCPort())
  {
    hide CommonFields, SelectorLabels, ServicePorts, Has;
    UntaggedDesired(ServiceManifest(lim));
    PortsForwarded(lim);
    var front, http, grpc := CommonFields(lim) + SelectorLabels(At(SPEC, Selector), lim),
                             Number(lim.HTTPPort()), Number(lim.GRPCPort());
    HasLater(front, ServicePorts(lim), At(At(SPEC, Segment.Ports), HttpPort), http);
    HasLater(front, ServicePorts(lim), At(At(SPEC, Segment.Ports), GrpcPort), grpc);
  }

  lemma PortsForwarded(lim: Limitador)
    ensures ForwardedPorts(ServicePorts(lim), lim.HTTPPort(), lim.GRPCPort())
    ensures OffHead(ServicePorts(lim))
  {
    hide Limitador.HTTPPort, Limitador.GRPCPort;
  }

  lemma StatusAnnounces(lim: Limitador, ready: Condition, now: nat)
    ensures var service := Controller.NewStatus(lim, ready, now).service;
      service.Some? && service.value.ports == Ports.Ports(lim.HTTPPort(), lim.GRPCPort())
  {
  }

  /** The server is told to listen on the ports that its container declares, the probes ask, the Service forwards to
      and the status announces. */
  lemma PortsAgree(lim: Limitador, ready: Condition, now: nat)
    ensures var args := OptionsOf(lim).args; var i := CommandLine.Parse(args);
      var service := Controller.NewStatus(lim, ready, now).service;
      && i.Some? && service.Some?
      && Has(DeploymentManifest(lim).Desired(), At(CONTAINER, Args), Texts(args))
      && ContainerPorts(DeploymentManifest(lim).Desired(), i.value.httpPort, i.value.rlsPort)
      && ForwardedPorts(ServiceManifest(lim).Desired(), i.value.httpPort, i.value.rlsPort)
      && service.value.ports == Ports.Ports(i.value.httpPort, i.value.rlsPort)
  {
    hide OptionsOf, ImageOf, DeploymentFields, CommandLine.Parse, ContainerPorts, ForwardedPorts, Has,
         Controller.NewStatus, ServiceManifest, SelectedStorage, StorageCommandOf;
    ArgumentsAndEnvironment(lim);
    UntaggedDesired(DeploymentManifest(lim));
    DeploymentPorts(lim, ImageOf(lim), OptionsOf(lim));
    ServiceForwards(lim);
    StatusAnnounces(lim, ready, now);
  }

  // ---------- selectors ----------

  /** `selector` below `parent` asks for nothing but labels that stand below `labels` with the same values. */
  predicate Selects(fields: FieldMap, parent: Path, template: FieldMap, labels: Path) {
    && Has(fields, At(parent, App), APP_NAME)
    && forall p | p in fields && p.At? && p.parent == parent :: Has(template, At(labels, p.segment), fields[p])
  }

  /** The pods of the Deployment carry every label that the Deployment, the Service and the budget select by, and that
      the operator lists its pods by. */
  lemma SelectorsAgree(lim: Limitador)
    ensures var d := DeploymentManifest(lim).Desired(); var labels := At(TEMPLATE, Segment.Labels);
      && Selects(d, At(SPEC, Selector), d, labels)
      && Selects(ServiceManifest(lim).Desired(), At(SPEC, Selector), d, labels)
      && (lim.spec.podDisruptionBudget.Some? ==> Selects(PdbManifest(lim).Desired(), At(SPEC, Selector), d, labels))
      && Selects(SelectorLabels(LABELS, lim), LABELS, d, labels)
  {
    hide OptionsOf, ImageOf, DeploymentFields, TemplateFields, ContainerFields, CommonFields, StrategyFields;
    hide PdbManifest, ServiceManifest, SelectorLabels, Labelled;
    var d := DeploymentManifest(lim).Desired();
    UntaggedDesired(DeploymentManifest(lim));
    PodsLabelled(lim);
    SelectorIsShared(lim, At(SPEC, Selector));
    SelectorIsShared(lim, LABELS);
    ExactSelector(lim);
    SelectsBy(SelectorLabels(LABELS, lim), LABELS, lim, d);
    SelectsBy(d, At(SPEC, Selector), lim, d);
    SelectsBy(ServiceManifest(lim).Desired(), At(SPEC, Selector), lim, d);
    if lim.spec.podDisruptionBudget.Some? {
      SelectsBy(PdbManifest(lim).Desired(), At(SPEC, Selector), lim, d);
    }
  }

  /** The two labels a pod is found by. */
  predicate Labelled(d: FieldMap, lim: Limitador) {
    && Has(d, At(At(TEMPLATE, Segment.Labels), App), APP_NAME)
    && Has(d, At(At(TEMPLATE, Segment.Labels), LimitadorResource), Text(lim.name))
  }

  /** Below `parent` stand exactly the two selector labels. */
  predicate ExactlySelects(fields: FieldMap, parent: Path, lim: Limitador) {
    && Has(fields, At(parent, App), APP_NAME)
    && Has(fields, At(parent, LimitadorResource), Text(lim.name))
    && forall p | p in fields && p.At? && p.parent == parent :: p.segment in {App, LimitadorResource}
  }

  lemma SelectsBy(fields: FieldMap, parent: Path, lim: Limitador, d: FieldMap)
    requires ExactlySelects(fields, parent, lim) && Labelled(d, lim)
    ensures Selects(fields, parent, d, At(TEMPLATE, Segment.Labels))
  {
  }

  lemma PodsLabelled(lim: Limitador)
    ensures Labelled(DeploymentFields(lim, ImageOf(lim), OptionsOf(lim)), lim)
  {
    hide OptionsOf, ImageOf, DeploymentFields, TemplateFields, Has;
    var o, labels := OptionsOf(lim), At(TEMPLATE, Segment.Labels);
    TemplateLabelled(lim, o);
    TemplateInDeployment(lim, ImageOf(lim), o, At(labels, App), APP_NAME);
    TemplateInDeployment(lim, ImageOf(lim), o, At(labels, LimitadorResource), Text(lim.name));
  }

  lemma TemplateLabelled(lim: Limitador, o: DeploymentOptions)
    ensures Labelled(TemplateFields(lim, o), lim)
  {
    hide VolumeFields, OptionalField, APP_NAME;
    OptionalElsewhere(lim);
  }

  lemma OptionalElsewhere(lim: Limitador)
    ensures forall p | p in OptionalField(At(TEMPLATE, Affinity), lim.spec.affinity) :: p == At(TEMPLATE, Affinity)
  {
  }

  lemma SelectorIsShared(lim: Limitador, parent: Path)
    ensures ExactlySelects(SelectorLabels(parent, lim), parent, lim)
  {
  }

  lemma ExactSelector(lim: Limitador)
    ensures ExactlySelects(DeploymentFields(lim, ImageOf(lim), OptionsOf(lim)), At(SPEC, Selector), lim)
    ensures ExactlySelects(ServiceManifest(lim).Desired(), At(SPEC, Selector), lim)
    ensures lim.spec.podDisruptionBudget.Some? ==>
      ExactlySelects(PdbManifest(lim).Desired(), At(SPEC, Selector), lim)
  {
    hide ExactlySelects, ImageOf, OptionsOf;
    DeploymentSelector(lim, ImageOf(lim), OptionsOf(lim));
    ServiceSelector(lim);
    BudgetSelector(lim);
  }

  /** No field of `fields` stands directly below the selector. */
  predicate NoSelector(fields: FieldMap) {
    forall p | p in fields :: !(p.At? && p.parent == At(SPEC, Selector))
  }

  /** Nor among the labels and owner references that all objects have. */
  predicate OffHead(fields: FieldMap) {
    NoSelector(fields) && OffCommon(fields)
  }

  predicate OffCommon(fields: FieldMap) {
    forall p | p in fields :: !(p.At? && p.parent in {LABELS, At(METADATA, OwnerReferences)})
  }

  lemma SelectorPlus(a: FieldMap, b: FieldMap, lim: Limitador)
    requires ExactlySelects(a, At(SPEC, Selector), lim) && NoSelector(b)
    ensures ExactlySelects(a + b, At(SPEC, Selector), lim)
  {
  }

  lemma PlusSelector(a: FieldMap, b: FieldMap, lim: Limitador)
    requires NoSelector(a) && ExactlySelects(b, At(SPEC, Selector), lim)
    ensures ExactlySelects(a + b, At(SPEC, Selector), lim)
  {
  }

  lemma CommonSelector(lim: Limitador)
    ensures ExactlySelects(CommonFields(lim) + SelectorLabels(At(SPEC, Selector), lim), At(SPEC, Selector), lim)
  {
    hide SelectorLabels, ExactlySelects;
    SelectorIsShared(lim, At(SPEC, Selector));
    assert NoSelector(CommonFields(lim));
    PlusSelector(CommonFields(lim), SelectorLabels(At(SPEC, Selector), lim), lim);
  }

  lemma DeploymentSelector(lim: Limitador, image: string, o: DeploymentOptions)
    ensures ExactlySelects(DeploymentFields(lim, image, o), At(SPEC, Selector), lim)
  {
    hide ExactlySelects, NoSelector, OffCommon, CommonFields, SelectorLabels, TemplateFields, ContainerFields,
         StrategyFields;
    CommonSelector(lim);
    DeploymentPartsOffHead(lim, image, o);
    var base := CommonFields(lim) + SelectorLabels(At(SPEC, Selector), lim);
    SelectorPlus(base, TemplateFields(lim, o), lim);
    SelectorPlus(base + TemplateFields(lim, o), ContainerFields(lim, image, o), lim);
    SelectorPlus(base + TemplateFields(lim, o) + ContainerFields(lim, image, o), StrategyFields(o.strategy), lim);
    SelectorPlus(base + TemplateFields(lim, o) + ContainerFields(lim, image, o) + StrategyFields(o.strategy),
                 map[REPLICAS := Number(lim.GetReplicas())], lim);
  }

  lemma DeploymentPartsOffHead(lim: Limitador, image: string, o: DeploymentOptions)
    ensures OffHead(TemplateFields(lim, o)) && OffHead(ContainerFields(lim, image, o))
    ensures OffHead(StrategyFields(o.strategy)) && OffHead(map[REPLICAS := Number(lim.GetReplicas())])
  {
    hide EnvFields, MountFields, VolumeFields, OptionalField, K8sObjects.Labels, ContainerBase, OffHead;
    var labels := K8sObjects.Labels(At(TEMPLATE, Segment.Labels), lim);
    var affinity := OptionalField(At(TEMPLATE, Affinity), lim.spec.affinity);
    var secrets: FieldMap :=
      if o.imagePullSecrets == [] then map[] else map[At(TEMPLATE, ImagePullSecrets) := Texts(o.imagePullSecrets)];
    var base := ContainerBase(lim, image, o.args);
    SmallPartsOffHead(lim, o);
    BaseOffHead(lim, image, o);
    OffHeadPlus(labels, affinity);
    OffHeadPlus(labels + affinity, secrets);
    OffHeadPlus(labels + affinity + secrets, VolumeFields(o.volumes));
    OffHeadPlus(base, EnvFields(o.envVar));
    OffHeadPlus(base + EnvFields(o.envVar), MountFields(o.volumeMounts));
  }

  lemma OffHeadPlus(a: FieldMap, b: FieldMap)
    requires OffHead(a) && OffHead(b)
    ensures OffHead(a + b)
  {
  }

  lemma SmallPartsOffHead(lim: Limitador, o: DeploymentOptions)
    ensures OffHead(K8sObjects.Labels(At(TEMPLATE, Segment.Labels), lim))
    ensures OffHead(OptionalField(At(TEMPLATE, Affinity), lim.spec.affinity))
    ensures OffHead(map[At(TEMPLATE, ImagePullSecrets) := Texts(o.imagePullSecrets)]) && OffHead(map[])
    ensures OffHead(StrategyFields(o.strategy)) && OffHead(map[REPLICAS := Number(lim.GetReplicas())])
  {
  }

  lemma BaseOffHead(lim: Limitador, image: string, o: DeploymentOptions)
    ensures OffHead(ContainerBase(lim, image, o.args)) && OffHead(EnvFields(o.envVar))
    ensures OffHead(MountFields(o.volumeMounts)) && OffHead(VolumeFields(o.volumes))
  {
    hide EnvFields, MountFields, VolumeFields;
  }

  lemma ServiceSelector(lim: Limitador)
    ensures ExactlySelects(ServiceManifest(lim).Desired(), At(SPEC, Selector), lim)
  {
    hide ExactlySelects, CommonFields, SelectorLabels, ServicePorts, NoSelector, ForwardedPorts;
    UntaggedDesired(ServiceManifest(lim));
    CommonSelector(lim);
    PortsForwarded(lim);
    SelectorPlus(CommonFields(lim) + SelectorLabels(At(SPEC, Selector), lim), ServicePorts(lim), lim);
  }

  lemma BudgetSelector(lim: Limitador)
    ensures lim.spec.podDisruptionBudget.Some? ==>
      ExactlySelects(PdbManifest(lim).Desired(), At(SPEC, Selector), lim)
  {
    hide ExactlySelects, CommonFields, SelectorLabels;
    if lim.spec.podDisruptionBudget.Some? {
      var b := lim.spec.podDisruptionBudget.value;
      UntaggedDesired(PdbManifest(lim));
      CommonSelector(lim);
      var upper := OptionalField(MAX_UNAVAILABLE, b.maxUnavailable);
      var lower := OptionalField(MIN_AVAILABLE, b.minAvailable);
      assert NoSelector(upper) && NoSelector(lower);
      SelectorPlus(PdbBase(lim).fields, upper, lim);
      SelectorPlus(PdbBase(lim).fields + upper, lower, lim);
    }
  }

  // ---------- what the user asked for ----------

  /** The field stands for an optional setting: there with its value exactly when the setting is there. */
  predicate StandsFor(fields: FieldMap, p: Path, setting: Option<string>) {
    && (p in fields <==> setting.Some?)
    && (setting.Some? ==> fields[p] == Opaque(setting.value))
  }

  /** Each bound of the budget is the user's own, or absent. */
  lemma BudgetBounds(lim: Limitador)
    requires lim.spec.podDisruptionBudget.Some?
    ensures var d := PdbManifest(lim).Desired(); var b := lim.spec.podDisruptionBudget.value;
      StandsFor(d, MAX_UNAVAILABLE, b.maxUnavailable) && StandsFor(d, MIN_AVAILABLE, b.minAvailable)
  {
    hide CommonFields, SelectorLabels, OptionalField, StandsFor;
    UntaggedDesired(PdbManifest(lim));
    var b := lim.spec.podDisruptionBudget.value;
    NothingOfTheSpec(lim, MAX_UNAVAILABLE);
    NothingOfTheSpec(lim, MIN_AVAILABLE);
    TwoSettings(PdbBase(lim).fields, MAX_UNAVAILABLE, b.maxUnavailable, MIN_AVAILABLE, b.minAvailable);
  }

  lemma NothingOfTheSpec(lim: Limitador, p: Path)
    requires p.At? && p.parent == SPEC
    ensures p !in CommonFields(lim) && p !in SelectorLabels(At(SPEC, Selector), lim)
  {
  }

  lemma TwoSettings(base: FieldMap, p: Path, s: Option<string>, q: Path, t: Option<string>)
    requires p != q && p !in base && q !in base
    ensures var d := base + OptionalField(p, s) + OptionalField(q, t); StandsFor(d, p, s) && StandsFor(d, q, t)
  {
  }

  /** A setting with a default stands for itself or for the default. */
  lemma ThreeSettings(base: FieldMap, p: Path, s: Option<string>, q: Path, t: Option<string>,
                      r: Path, u: Option<string>, fallback: string)
    requires p != q && p != r && q != r && p !in base && q !in base && Has(base, r, Opaque(fallback))
    ensures var d := base + (OptionalField(p, s) + OptionalField(q, t) + OptionalField(r, u));
      && StandsFor(d, p, s) && StandsFor(d, q, t) && StandsFor(d, r, Some(u.GetOr(fallback)))
      && forall o | o in base && o != r :: Has(d, o, base[o])
  {
  }

  /** The claim asks for what the user set, and for one gibibyte when no size is set. */
  lemma ClaimContents(lim: Limitador)
    requires lim.spec.storage.Some? && lim.spec.storage.value.disk.Some?
    ensures var d := PvcManifest(lim).Desired(); var pvc := lim.spec.storage.value.disk.value.pvc;
      && StandsFor(d, At(SPEC, StorageClassName), if pvc.Some? then pvc.value.storageClassName else None)
      && StandsFor(d, At(SPEC, VolumeName), if pvc.Some? then pvc.value.volumeName else None)
      && StandsFor(d, STORAGE_REQUEST,
           Some(if pvc.Some? && pvc.value.resources.Some? then pvc.value.resources.value else "1Gi"))
      && Has(d, At(SPEC, AccessModes), Texts(["ReadWriteOnce"]))
  {
    hide CommonFields, OptionalField, StandsFor;
    UntaggedDesired(PvcManifest(lim));
    var none := PVCGenericSpec(None, None, None);
    var pvc := lim.spec.storage.value.disk.value.pvc.GetOr(none);
    var sc, vn := At(SPEC, StorageClassName), At(SPEC, VolumeName);
    var base := PvcBase(lim).fields;
    ClaimBase(lim);
    ThreeSettings(base, sc, pvc.storageClassName, vn, pvc.volumeName, STORAGE_REQUEST, pvc.resources,
                  DEFAULT_CLAIM_SIZE);
    if pvc == none {
      NoSettings(base, none);
    }
  }

  lemma ClaimBase(lim: Limitador)
    ensures var base := PvcBase(lim).fields;
      && Has(base, STORAGE_REQUEST, Opaque(DEFAULT_CLAIM_SIZE))
      && Has(base, At(SPEC, AccessModes), Texts(["ReadWriteOnce"]))
      && At(SPEC, StorageClassName) !in base && At(SPEC, VolumeName) !in base
  {
    hide CommonFields;
    NothingOfTheSpec(lim, At(SPEC, StorageClassName));
    NothingOfTheSpec(lim, At(SPEC, VolumeName));
  }

  lemma NoSettings(base: FieldMap, none: PVCGenericSpec)
    requires none == PVCGenericSpec(None, None, None)
    ensures base + ClaimFields(none) == base
  {
  }

  // ---------- the limits file ----------

  /** The server reads its limits from a file below the mount of a volume that shows the ConfigMap in which the
      operator stores the limits of the resource, or an empty list when it has none. */
  lemma LimitsReachTheServer(lim: Limitador)
    ensures var d := DeploymentManifest(lim).Desired();
      && "/home/limitador/etc/limitador-config.yaml" in OptionsOf(lim).args
      && Has(d, At(At(CONTAINER, VolumeMounts), Item("/home/limitador/etc")), MountOf(LIMITS_VOLUME))
      && Has(d, At(At(TEMPLATE, Volumes), Item(LIMITS_VOLUME)), FromConfigMap(ConfigMapManifest(lim).key.name))
      && Has(ConfigMapManifest(lim).Desired(), At(At(Root, Data), LimitsFile),
             Opaque(if lim.spec.limits.Some? then lim.spec.limits.value else "[]\n"))
  {
    hide DeploymentManifest, OptionsOf, CommonFields, Has;
    LimitsStored(lim);
    ListsInDeployment(lim);
    LimitsFileNamed(lim);
  }

  lemma LimitsStored(lim: Limitador)
    ensures Has(ConfigMapManifest(lim).Desired(), At(At(Root, Data), LimitsFile), Opaque(lim.Limits()))
  {
    hide CommonFields, Limitador.Limits, Manifest.Desired, Has, IsTagged;
    UntaggedDesired(ConfigMapManifest(lim));
    EntryAdded(CommonFields(lim), At(At(Root, Data), LimitsFile), Opaque(lim.Limits()));
  }

  lemma EntryAdded(fields: FieldMap, p: Path, v: Value)
    ensures Has(fields + map[p := v], p, v)
  {
  }

  lemma LimitsFileNamed(lim: Limitador)
    ensures CommandLine.LIMITS_FILE == LIMITS_MOUNT_PATH + "/limitador-config.yaml"
    ensures CommandLine.LIMITS_FILE in OptionsOf(lim).args
  {
    hide CommandLine.ChoiceTokens, CommandLine.PortTokens, StorageOptionsOf, InvocationOf, EnvVarOf;
    assert CommandLine.LIMITS_FILE in CommandLine.PrintFlags(InvocationOf(lim));
  }

  /** The mounts and the volumes of the storage come after those of the limits file, and under other names. */
  lemma MountedFields(mounts: seq<VolumeMount>, volumes: seq<Volume>, o: DeploymentStorageOptions, source: Value)
    requires mounts == [VolumeMount(LIMITS_VOLUME, LIMITS_MOUNT_PATH)] + o.volumeMounts
    requires volumes == [Volume(LIMITS_VOLUME, source)] + o.volumes
    requires o.volumeMounts == [] || (|o.volumeMounts| == 1 && o.volumeMounts[0].mountPath != LIMITS_MOUNT_PATH)
    requires o.volumes == [] || (|o.volumes| == 1 && o.volumes[0].name != LIMITS_VOLUME)
    ensures Has(MountFields(mounts), At(At(CONTAINER, VolumeMounts), Item(LIMITS_MOUNT_PATH)), MountOf(LIMITS_VOLUME))
    ensures Has(VolumeFields(volumes), At(At(TEMPLATE, Volumes), Item(LIMITS_VOLUME)), source)
    ensures forall m | m in o.volumeMounts ::
      Has(MountFields(mounts), At(At(CONTAINER, VolumeMounts), Item(m.mountPath)), MountOf(m.name))
    ensures forall v | v in o.volumes :: Has(VolumeFields(volumes), At(At(TEMPLATE, Volumes), Item(v.name)), v.source)
  {
    var mount, volume := VolumeMount(LIMITS_VOLUME, LIMITS_MOUNT_PATH), Volume(LIMITS_VOLUME, source);
    FirstMount(mount);
    FirstVolume(volume);
    if o.volumeMounts != [] {
      assert mounts == [mount, o.volumeMounts[0]] && mounts[..1] == [mount];
    }
    if o.volumes != [] {
      assert volumes == [volume, o.volumes[0]] && volumes[..1] == [volume];
    }
  }

  lemma FirstMount(m: VolumeMount)
    ensures MountFields([m]) == map[At(At(CONTAINER, VolumeMounts), Item(m.mountPath)) := MountOf(m.name)]
  {
    assert [m][..0] == [];
  }

  lemma FirstVolume(v: Volume)
    ensures VolumeFields([v]) == map[At(At(TEMPLATE, Volumes), Item(v.name)) := v.source]
  {
    assert [v][..0] == [];
  }

  lemma StoragePaths(lim: Limitador)
    ensures var o := StorageOptionsOf(lim);
      && (o.volumeMounts == [] || (|o.volumeMounts| == 1 && o.volumeMounts[0].mountPath != LIMITS_MOUNT_PATH))
      && (o.volumes == [] || (|o.volumes| == 1 && o.volumes[0].name != LIMITS_VOLUME))
  {
    hide CommandLine.PrintStorage;
    assert CommandLine.DISK_PATH[1] == 'v' && LIMITS_MOUNT_PATH[1] == 'h';
    assert DISK_VOLUME[0] == 's' && LIMITS_VOLUME[0] == 'c';
  }

  /** Every mount and every volume of the options has its field in the template and in the container. */
  lemma ListsInDeployment(lim: Limitador)
    ensures var d := DeploymentManifest(lim).Desired(); var o := StorageOptionsOf(lim);
      && Has(d, At(At(CONTAINER, VolumeMounts), Item(LIMITS_MOUNT_PATH)), MountOf(LIMITS_VOLUME))
      && Has(d, At(At(TEMPLATE, Volumes), Item(LIMITS_VOLUME)), FromConfigMap(ConfigMapKey(lim).name))
      && (forall m | m in o.volumeMounts ::
            Has(d, At(At(CONTAINER, VolumeMounts), Item(m.mountPath)), MountOf(m.name)))
      && (forall v | v in o.volumes :: Has(d, At(At(TEMPLATE, Volumes), Item(v.name)), v.source))
  {
    hide DeploymentFields, ImageOf, MountFields, VolumeFields, TemplateFields, Has, StorageOptionsOf;
    hide CommandLine.PrintFlags;
    UntaggedDesired(DeploymentManifest(lim));
    StoragePaths(lim);
    var o, s, image := OptionsOf(lim), StorageOptionsOf(lim), ImageOf(lim);
    var source := FromConfigMap(ConfigMapKey(lim).name);
    MountedFields(o.volumeMounts, o.volumes, s, source);
    MountInDeployment(lim, image, o, At(At(CONTAINER, VolumeMounts), Item(LIMITS_MOUNT_PATH)), MountOf(LIMITS_VOLUME));
    VolumeInDeployment(lim, image, o, LIMITS_VOLUME, source);
    forall m | m in s.volumeMounts
      ensures Has(DeploymentFields(lim, image, o), At(At(CONTAINER, VolumeMounts), Item(m.mountPath)), MountOf(m.name))
    {
      MountInDeployment(lim, image, o, At(At(CONTAINER, VolumeMounts), Item(m.mountPath)), MountOf(m.name));
    }
    forall v | v in s.volumes
      ensures Has(DeploymentFields(lim, image, o), At(At(TEMPLATE, Volumes), Item(v.name)), v.source)
    {
      VolumeInDeployment(lim, image, o, v.name, v.source);
    }
  }

  lemma VolumeInDeployment(lim: Limitador, image: string, o: DeploymentOptions, name: string, source: Value)
    requires Has(VolumeFields(o.volumes), At(At(TEMPLATE, Volumes), Item(name)), source)
    ensures Has(DeploymentFields(lim, image, o), At(At(TEMPLATE, Volumes), Item(name)), source)
  {
    hide DeploymentFields, VolumeFields;
    TemplateInDeployment(lim, image, o, At(At(TEMPLATE, Volumes), Item(name)), source);
  }

  // ---------- the storage ----------

  lemma EnvInDeployment(lim: Limitador, image: string, o: DeploymentOptions, p: Path, v: Value)
    requires Has(EnvFields(o.envVar), p, v)
    ensures Has(DeploymentFields(lim, image, o), p, v)
  {
    hide EnvFields, MountFields, DeploymentFields, ContainerBase;
    HasLater(ContainerBase(lim, image, o.args), EnvFields(o.envVar), p, v);
    HasLater(ContainerBase(lim, image, o.args) + EnvFields(o.envVar), MountFields(o.volumeMounts), p, v);
    ContainerInDeployment(lim, image, o, p, v);
  }

  /** A server told to store on disk finds the claim that the operator provides mounted at the path it is told; a server
      told to use Redis finds its URL variable bound to the URL of the secret the user named. */
  lemma StorageReachesTheServer(lim: Limitador)
    ensures var d := DeploymentManifest(lim).Desired(); var i := CommandLine.Parse(OptionsOf(lim).args);
      var secret := SecretRef(SelectedStorage(lim.spec));
      && i.Some?
      && (i.value.storage.DiskStorage? ==>
            && Has(d, At(At(CONTAINER, VolumeMounts), Item(CommandLine.DISK_PATH)), MountOf(DISK_VOLUME))
            && Has(d, At(At(TEMPLATE, Volumes), Item(DISK_VOLUME)), FromClaim(PvcManifest(lim).key.name))
            && !IsTagged(PvcManifest(lim)))
      && ((i.value.storage.RedisStorage? || i.value.storage.RedisCachedStorage?) && secret.Some? ==>
            Has(d, At(At(CONTAINER, Env), Item(CommandLine.REDIS_URL_VARIABLE)), SecretKey(secret.value, "URL")))
  {
    hide DeploymentFields, ImageOf, OptionsOf, Has, CommandLine.Parse, EnvFields, PvcManifest, IsTagged,
         StorageOptionsOf;
    ArgumentsAndEnvironment(lim);
    UntaggedDesired(DeploymentManifest(lim));
    ListsInDeployment(lim);
    PvcWellMade(lim);
    ClaimName(lim);
    DiskLists(lim);
    var choice := SelectedStorage(lim.spec);
    if SecretRef(choice).Some? {
      BoundVariable(lim);
      EnvInDeployment(lim, ImageOf(lim), OptionsOf(lim),
        At(At(CONTAINER, Env), Item(CommandLine.REDIS_URL_VARIABLE)), SecretKey(SecretRef(choice).value, "URL"));
    }
  }

  lemma ClaimName(lim: Limitador)
    ensures PvcManifest(lim).key == PVCKey(lim)
  {
  }

  lemma DiskLists(lim: Limitador)
    ensures SelectedStorage(lim.spec).UseDisk? ==>
      && VolumeMount(DISK_VOLUME, CommandLine.DISK_PATH) in StorageOptionsOf(lim).volumeMounts
      && Volume(DISK_VOLUME, FromClaim(PVCKey(lim).name)) in StorageOptionsOf(lim).volumes
  {
    hide CommandLine.PrintStorage;
  }

  lemma BoundVariable(lim: Limitador)
    requires SecretRef(SelectedStorage(lim.spec)).Some?
    ensures Has(EnvFields(OptionsOf(lim).envVar), At(At(CONTAINER, Env), Item(CommandLine.REDIS_URL_VARIABLE)),
                SecretKey(SecretRef(SelectedStorage(lim.spec)).value, "URL"))
  {
    hide CommandLine.PrintFlags, CommandLine.PrintStorage, StorageOptionsOf;
    var env := OptionsOf(lim).envVar;
    assert env[..0] == [];
  }
}
