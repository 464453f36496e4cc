/** Whole runs: any number of reconciles, with any interference and any failed calls in between, and a cache that may
    lag. What the histories keep, what the operator may touch, and that the observed generation never goes back. */
module Runs {
  import opened Wrappers
  import opened Fields
  import opened Objects
  import opened LimitadorTypes
  import opened StatusConditions
  import opened K8sObjects
  import opened Cluster
  import opened Reconcilers
  import opened Controller
  import opened Histories

  // ---------- what the operator may do ----------

  /** The only effects a reconcile of `lim` can have, as recorded by the API server: what its plan says, pod
      annotations in its namespace, and its status. */
  predicate MayDo(lim: Limitador, e: Event) {
    match e
    case AppliedObject(k, fields) =>
      || Enforce(k, fields) in SpecPlan(lim)
      || (k.kind == Pod && k.namespace == lim.namespace && fields.Keys == {LIMITS_VERSION_ANNOTATION})
    case CreatedObject(k, fields) => Provide(k, fields) in SpecPlan(lim)
    case DeletedObject(k) => Discard(k) in SpecPlan(lim)
    case CheckedDeployment(_) => true
    case SpecCompleted(g) => g == lim.generation
    case WroteStatus(status, _) => status.observedGeneration == lim.generation
  }

  ghost function Allowed(lim: Limitador): iset<Event> {
    iset e | MayDo(lim, e)
  }

  /** The events of the spec steps: no pod, no status. */
  ghost function SpecEvents(lim: Limitador): iset<Event> {
    iset e | MayDo(lim, e) && ((e.AppliedObject? && e.key.kind != Pod) || e.CreatedObject? || e.DeletedObject?)
  }

  lemma ManifestKeys(lim: Limitador)
    ensures ServiceManifest(lim).key == ServiceKey(lim) && PvcManifest(lim).key == PVCKey(lim)
    ensures DeploymentManifest(lim).key == DeploymentKey(lim) && ConfigMapManifest(lim).key == ConfigMapKey(lim)
    ensures PdbManifest(lim).key == PDBKey(lim)
  {
    hide CommonFields, SelectorLabels, DeploymentFields, ServicePorts, ClaimDefaults, ClaimFields, OptionalField;
  }

  /** What the plan may contain: forced applies of the Service, Deployment, ConfigMap and a wanted PDB, all labelled
      and without the delete tag; creation of a wanted claim; deletion of an unwanted claim or PDB; storage checks. */
  predicate PlannedFor(lim: Limitador, a: Action) {
    match a
    case Enforce(k, fields) =>
      && (k in {ServiceKey(lim), DeploymentKey(lim), ConfigMapKey(lim)}
          || (k == PDBKey(lim) && lim.spec.podDisruptionBudget.Some?))
      && DELETE_TAG !in fields && NoRoot(fields) && APP_LABEL in fields && fields[APP_LABEL] == APP_NAME
    case Provide(k, fields) =>
      && k == PVCKey(lim) && HasDisk(lim.spec)
      && DELETE_TAG !in fields && NoRoot(fields) && APP_LABEL in fields && fields[APP_LABEL] == APP_NAME
    case Discard(k) =>
      || (k == PVCKey(lim) && !HasDisk(lim.spec))
      || (k == PDBKey(lim) && lim.spec.podDisruptionBudget.None?)
    case DemandURL(k) => UsesRedis(SelectedStorage(lim.spec)) && k.kind == Secret && k.namespace == lim.namespace
    case Fail(_) => UsesRedis(SelectedStorage(lim.spec)) && SecretRef(SelectedStorage(lim.spec)).None?
  }

  lemma EnforcePlanned(lim: Limitador, m: Manifest)
    requires !IsTagged(m) && WellMade(m.Desired())
    requires m.key in {ServiceKey(lim), DeploymentKey(lim), ConfigMapKey(lim)}
          || (m.key == PDBKey(lim) && lim.spec.podDisruptionBudget.Some?)
    ensures PlannedFor(lim, ActionFor(m))
  {
  }

  lemma ProvidePlanned(lim: Limitador, m: Manifest)
    requires !IsTagged(m) && WellMade(m.Desired()) && m.key == PVCKey(lim) && HasDisk(lim.spec)
    ensures PlannedFor(lim, ClaimActionFor(m))
  {
  }

  lemma DiscardPlanned(lim: Limitador, m: Manifest)
    requires IsTagged(m)
    requires (m.key == PVCKey(lim) && !HasDisk(lim.spec))
          || (m.key == PDBKey(lim) && lim.spec.podDisruptionBudget.None?)
    ensures PlannedFor(lim, ActionFor(m)) && PlannedFor(lim, ClaimActionFor(m))
  {
  }

  lemma EachManifestPlanned(lim: Limitador)
    ensures PlannedFor(lim, ActionFor(ServiceManifest(lim))) && PlannedFor(lim, ActionFor(DeploymentManifest(lim)))
    ensures PlannedFor(lim, ActionFor(ConfigMapManifest(lim))) && PlannedFor(lim, ActionFor(PdbManifest(lim)))
    ensures PlannedFor(lim, ClaimActionFor(PvcManifest(lim)))
  {
    hide ServiceManifest, PvcManifest, DeploymentManifest, ConfigMapManifest, PdbManifest, PlannedFor,
         ActionFor, ClaimActionFor, IsTagged, WellMade, ServiceKey, DeploymentKey, ConfigMapKey, PDBKey, PVCKey;
    ManifestKeys(lim);
    ServiceWellMade(lim);
    DeploymentWellMade(lim);
    ConfigMapWellMade(lim);
    PdbWellMade(lim);
    PvcWellMade(lim);
    EnforcePlanned(lim, ServiceManifest(lim));
    EnforcePlanned(lim, DeploymentManifest(lim));
    EnforcePlanned(lim, ConfigMapManifest(lim));
    if IsTagged(PdbManifest(lim)) {
      DiscardPlanned(lim, PdbManifest(lim));
    } else {
      EnforcePlanned(lim, PdbManifest(lim));
    }
    if IsTagged(PvcManifest(lim)) {
      DiscardPlanned(lim, PvcManifest(lim));
    } else {
      ProvidePlanned(lim, PvcManifest(lim));
    }
  }

  lemma PlanContents(lim: Limitador)
    ensures forall a | a in SpecPlan(lim) :: PlannedFor(lim, a)
  {
    hide ServiceManifest, PvcManifest, DeploymentManifest, ConfigMapManifest, PdbManifest, ActionFor, ClaimActionFor;
    EachManifestPlanned(lim);
    forall a | a in SpecPlan(lim)
      ensures PlannedFor(lim, a)
    {
      if a !in StorageCheck(lim) {
        assert a in [ActionFor(ServiceManifest(lim)), ClaimActionFor(PvcManifest(lim)),
                     ActionFor(DeploymentManifest(lim)), ActionFor(ConfigMapManifest(lim)),
                     ActionFor(PdbManifest(lim))];
      }
    }
  }

  lemma SpecActionsAllowed(lim: Limitador)
    ensures forall a | a in SpecPlan(lim) :: EventsOf(a) <= SpecEvents(lim)
  {
    hide SpecPlan;
    PlanContents(lim);
  }

  lemma SpecExecRecords(w: World, lim: Limitador)
    ensures Records(w, Exec(w, SpecPlan(lim)).0, SpecEvents(lim))
  {
    hide SpecPlan, Records, EventsOf;
    SpecActionsAllowed(lim);
    ExecRecords(w, SpecPlan(lim), SpecEvents(lim));
  }

  // ---------- pods ----------

  /** The patch of one pod to one version. */
  function Annotated(k: Key, version: nat): Event {
    AppliedObject(k, map[LIMITS_VERSION_ANNOTATION := Version(version)])
  }

  ghost function PodEvents(lim: Limitador, version: nat): iset<Event> {
    iset e: Event | e.AppliedObject? && e.key.kind == Pod && e.key.namespace == lim.namespace
                    && e == Annotated(e.key, version)
  }

  lemma PodPatchAction(k: Key, version: nat)
    ensures ActionFor(PodPatch(k, version)) == Enforce(k, map[LIMITS_VERSION_ANNOTATION := Version(version)])
  {
    var annotations := map[LimitsVersion := Version(version)];
    assert AnnotationFields(annotations) == map[LIMITS_VERSION_ANNOTATION := Version(version)] by {
      assert LimitsVersion in annotations;
    }
    assert PodPatch(k, version).Desired() == map[] + AnnotationFields(annotations);
    assert DeleteTag !in annotations;
  }

  lemma {:induction false} ListedAreSelected(w: World, roster: seq<Key>, namespace: string, selector: FieldMap)
    ensures forall p | p in ListedFrom(w, roster, namespace, selector) ::
      && p.key in roster && p.key.kind == Pod && p.key.namespace == namespace
      && View(w, p.key) == Some(p.state) && Selected(p.state, selector)
    decreases |roster|
  {
    if roster != [] {
      ListedAreSelected(w, roster[1..], namespace, selector);
    }
  }

  lemma {:induction false} PodPlanActions(pods: seq<ListedPod>, version: nat)
    ensures forall a | a in PodPlan(pods, version) ::
      exists p :: p in pods && OutOfDate(p, version) && a == ActionFor(PodPatch(p.key, version))
  {
    hide ActionFor, PodPatch, OutOfDate;
    if pods != [] {
      PodPlanActions(pods[1..], version);
      forall a | a in PodPlan(pods, version)
        ensures exists p :: p in pods && OutOfDate(p, version) && a == ActionFor(PodPatch(p.key, version))
      {
        if a in PodPlan(pods[1..], version) {
          var p :| p in pods[1..] && OutOfDate(p, version) && a == ActionFor(PodPatch(p.key, version));
          assert p in pods;
        } else {
          assert pods[0] in pods;
        }
      }
    }
  }

  lemma PodExecRecords(w: World, lim: Limitador, pods: seq<ListedPod>, version: nat)
    requires forall p | p in pods :: p.key.kind == Pod && p.key.namespace == lim.namespace
    ensures Records(w, Exec(w, PodPlan(pods, version)).0, PodEvents(lim, version))
  {
    hide Records, Exec, ActionFor;
    var plan := PodPlan(pods, version);
    PodPlanActions(pods, version);
    forall a | a in plan
      ensures EventsOf(a) <= PodEvents(lim, version)
    {
      var p :| p in pods && OutOfDate(p, version) && a == ActionFor(PodPatch(p.key, version));
      PodPatchAction(p.key, version);
    }
    ExecRecords(w, plan, PodEvents(lim, version));
  }

  lemma RecordsWiden(w: World, x: World, few: iset<Event>, many: iset<Event>)
    requires Records(w, x, few) && few <= many
    ensures Records(w, x, many)
  {
  }

  /** Annotations of pods in the namespace, to whatever version. */
  ghost function PatchEvents(lim: Limitador): iset<Event> {
    iset e: Event | e.AppliedObject? && e.key.kind == Pod && e.key.namespace == lim.namespace
                    && e.fields.Keys == {LIMITS_VERSION_ANNOTATION}
  }

  lemma PatchEventsContain(lim: Limitador, version: nat)
    ensures PodEvents(lim, version) <= PatchEvents(lim) <= Allowed(lim)
  {
    hide SpecPlan;
  }

  /** A read has shown the pod `k` with the selector labels of `lim`. */
  ghost predicate WasShown(w: World, lim: Limitador, k: Key) {
    exists i | 0 <= i < Position(w, k) :: Carries(Versions(w, k)[i], SelectorLabels(LABELS, lim))
  }

  predicate Carries(o: Option<Object>, selector: FieldMap) {
    o.Some? && Selected(o.value, selector)
  }

  lemma ShownStillShown(w: World, x: World, lim: Limitador, k: Key)
    requires Grows(w, x) && WasShown(w, lim, k)
    ensures WasShown(x, lim, k)
  {
    hide Carries, SelectorLabels;
    assert Versions(w, k) <= Versions(x, k) && Position(w, k) <= Position(x, k);
    var i :| 0 <= i < Position(w, k) && Carries(Versions(w, k)[i], SelectorLabels(LABELS, lim));
    assert Versions(x, k)[i] == Versions(w, k)[i];
  }

  lemma ListedWasShown(w: World, lim: Limitador, p: ListedPod)
    requires p.key.kind == Pod && View(w, p.key) == Some(p.state) && Selected(p.state, SelectorLabels(LABELS, lim))
    ensures WasShown(w, lim, p.key)
  {
    hide SelectorLabels, HasAppLabel, Selected;
    var n := Position(w, p.key);
    assert Versions(w, p.key)[..n][n - 1] == Versions(w, p.key)[n - 1];
    assert Carries(Versions(w, p.key)[n - 1], SelectorLabels(LABELS, lim));
  }

  /** Annotations of pods that were shown by then with the selector labels. */
  ghost function ShownPatches(x: World, lim: Limitador): iset<Event> {
    iset e: Event | e in PatchEvents(lim) && WasShown(x, lim, e.key)
  }

  lemma PodExecShown(w: World, x: World, lim: Limitador, pods: seq<ListedPod>, version: nat)
    requires forall p | p in pods ::
      p.key.kind == Pod && p.key.namespace == lim.namespace && WasShown(x, lim, p.key)
    ensures Records(w, Exec(w, PodPlan(pods, version)).0, ShownPatches(x, lim))
  {
    hide Records, Exec, ActionFor, WasShown;
    var plan := PodPlan(pods, version);
    PodPlanActions(pods, version);
    forall a | a in plan
      ensures EventsOf(a) <= ShownPatches(x, lim)
    {
      var p :| p in pods && OutOfDate(p, version) && a == ActionFor(PodPatch(p.key, version));
      PodPatchAction(p.key, version);
    }
    ExecRecords(w, plan, ShownPatches(x, lim));
  }

  /** The pod step annotates no pod that its list did not show. */
  lemma AnnotateShown(w: World, lim: Limitador)
    ensures Records(w, AnnotatePods(w, lim).world, ShownPatches(Before(w), lim))
  {
    hide Records, Before, Exec, SelectorLabels, PodPlan, View, ShownPatches, WasShown;
    var x := Before(w);
    var events := ShownPatches(x, lim);
    BeforePasses(w);
    PassesRecords(w, x, events);
    var listed := ListPods(w, lim.namespace, SelectorLabels(LABELS, lim));
    if listed.1.Ok? && listed.1.value != [] && !ReplicasMismatch(lim, |listed.1.value|) {
      ListedAreSelected(x, x.roster, lim.namespace, SelectorLabels(LABELS, lim));
      forall p | p in listed.1.value
        ensures WasShown(x, lim, p.key)
      {
        ListedWasShown(x, lim, p);
      }
      var y := Before(x);
      BeforePasses(x);
      PassesRecords(x, y, events);
      RecordsTransitive(w, x, y, events);
      var got := Get(x, ConfigMapKey(lim));
      if got.1.Ok? {
        var version := got.1.value.version;
        PodExecShown(y, x, lim, listed.1.value, version);
        RecordsTransitive(w, y, Exec(y, PodPlan(listed.1.value, version)).0, events);
      }
    }
  }

  lemma AnnotateRecords(w: World, lim: Limitador)
    ensures Records(w, AnnotatePods(w, lim).world, PatchEvents(lim))
  {
    hide Records, Before, AnnotatePods, PatchEvents, WasShown;
    AnnotateShown(w, lim);
    RecordsWiden(w, AnnotatePods(w, lim).world, ShownPatches(Before(w), lim), PatchEvents(lim));
  }

  lemma SpecEffectRecords(w: World, lim: Limitador)
    ensures Records(w, SpecEffect(w, lim).world, Allowed(lim))
  {
    hide Records, Exec, SpecPlan, AnnotatePods, Note;
    var done := Exec(w, SpecPlan(lim));
    SpecExecRecords(w, lim);
    RecordsWiden(w, done.0, SpecEvents(lim), Allowed(lim));
    AnnotateRecords(done.0, lim);
    var pods := AnnotatePods(done.0, lim);
    PatchEventsContain(lim, 0);
    RecordsWiden(done.0, pods.world, PatchEvents(lim), Allowed(lim));
    RecordsTransitive(w, done.0, pods.world, Allowed(lim));
    NoteRecords(pods.world, SpecCompleted(lim.generation), Allowed(lim));
    RecordsTransitive(w, pods.world, Note(pods.world, SpecCompleted(lim.generation)), Allowed(lim));
  }

  lemma ReadyConditionRecords(w: World, lim: Limitador, specErr: Option<Error>)
    ensures Records(w, ReadyCondition(w, lim, specErr).0, Allowed(lim))
  {
    hide Records, Before, View, Note;
    SamePasses(w);
    PassesRecords(w, w, Allowed(lim));
    BeforePasses(w);
    PassesRecords(w, Before(w), Allowed(lim));
    var got := Get(w, DeploymentKey(lim)).1;
    var e := CheckedDeployment(if got.Ok? then Some(got.value) else None);
    NoteRecords(Before(w), e, Allowed(lim));
    RecordsTransitive(w, Before(w), Note(Before(w), e), Allowed(lim));
  }

  // ---------- the status write ----------

  /** As `Records`, except that the operator's status may have been replaced. */
  ghost predicate Extends(w: World, x: World, events: iset<Event>) {
    && Grows(w, x) && (Sound(w) ==> Sound(x))
    && forall i | |w.journal| <= i < |x.journal| :: x.journal[i] in events
  }

  lemma RecordsExtends(w: World, x: World, events: iset<Event>)
    requires Records(w, x, events)
    ensures Extends(w, x, events)
  {
    hide Sound, Grows;
  }

  /** `lim` is what the cache showed at `w`. */
  ghost predicate ReadAt(w: World, lim: Limitador) {
    ViewResource(w).Some? && ViewResource(w).value.lim == lim
  }

  lemma {:induction false} KeptIsKept(stored: seq<Condition>, applied: seq<Condition>, dropped: set<string>)
    ensures var kept := KeptConditions(stored, applied, dropped);
      && (forall c :: c in kept <==> c in stored && !HasType(applied, c.conditionType) && c.conditionType !in dropped)
      && (UniqueTypes(stored) ==> UniqueTypes(kept))
  {
    if stored != [] {
      var front, c := stored[..|stored| - 1], stored[|stored| - 1];
      KeptIsKept(front, applied, dropped);
      var kept := KeptConditions(front, applied, dropped);
      if UniqueTypes(stored) {
        forall x | x in kept
          ensures x.conditionType != c.conditionType
        {
          assert x in front;
          var i :| 0 <= i < |front| && front[i] == x;
          assert stored[i] == x;
        }
      }
    }
  }

  lemma MergeKeepsUnique(r: Resource, status: LimitadorStatus)
    requires UniqueTypes(r.lim.status.conditions) && UniqueTypes(status.conditions)
    ensures UniqueTypes(MergeStatus(r, status).lim.status.conditions)
  {
    var dropped := r.listed - TypesOf(status.conditions) - r.foreign;
    var kept := KeptConditions(r.lim.status.conditions, status.conditions, dropped);
    KeptIsKept(r.lim.status.conditions, status.conditions, dropped);
    forall i, j | 0 <= i < |status.conditions| && 0 <= j < |kept|
      ensures status.conditions[i].conditionType != kept[j].conditionType
    {
      assert kept[j] in kept && status.conditions[i] in status.conditions;
    }
  }

  lemma ResourceAppended(rs: seq<Option<Resource>>, next: Resource)
    requires ResourcesOrdered(rs) && LastOf(rs).Some? && NoLater(LastOf(rs).value.lim, next.lim)
    requires next.lim.status.observedGeneration <= next.lim.generation && UniqueTypes(next.lim.status.conditions)
    ensures ResourcesOrdered(rs + [Some(next)])
  {
    var n, all := |rs|, rs + [Some(next)];
    assert forall i | 0 <= i < n :: all[i] == rs[i];
    forall i | 0 <= i < n
      ensures rs[i].Some? && NoLater(rs[i].value.lim, next.lim)
    {
      if i < n - 1 {
        assert rs[n - 1].Some? && NoLater(rs[i].value.lim, rs[n - 1].value.lim);
      }
    }
  }

  /** What the cache may show after `lim` was read is at least as new as `lim`. */
  lemma LaterReads(w: World, x: World, lim: Limitador)
    requires ReadAt(w, lim) && Grows(w, x) && ResourcesOrdered(x.resource)
    ensures forall i | ResourcePosition(x) - 1 <= i < |x.resource| && x.resource[i].Some? ::
      lim.generation <= x.resource[i].value.lim.generation
  {
    var p := ResourcePosition(w) - 1;
    assert w.resource[..ResourcePosition(w)][p] == w.resource[p];
    assert x.resource[p] == w.resource[p] && x.resource[p].value.lim == lim;
    forall i | p <= i < |x.resource| && x.resource[i].Some?
      ensures lim.generation <= x.resource[i].value.lim.generation
    {
      if p < i {
        assert NoLater(x.resource[p].value.lim, x.resource[i].value.lim);
      }
    }
  }

  /** Serving a status changes the resource only. */
  lemma ServeStatusGrows(x: World, status: LimitadorStatus, at: nat)
    ensures var y := ServeStatus(x, status, at).0;
      && Grows(x, y)
      && ((forall k: Key :: Ordered(Versions(x, k), x.clock)) ==> forall k: Key :: Ordered(Versions(y, k), y.clock))
      && (y.resource == x.resource || (StoredResource(x).Some? &&
            y.resource == x.resource + [Some(MergeStatus(StoredResource(x).value, status))]))
      && ResourcePosition(x) <= ResourcePosition(y)
  {
    hide MergeStatus, Ordered;
    var y := ServeStatus(x, status, at).0;
    assert forall k: Key :: Versions(y, k) == Versions(x, k) && Position(y, k) == Position(x, k);
  }

  /** A status for the generation just read may be written: nothing newer was written since. */
  lemma ServeStatusExtends(w: World, x: World, lim: Limitador, status: LimitadorStatus, at: nat)
    requires Sound(w) && ReadAt(w, lim) && Grows(w, x) && KeepsStatus(w, x) && Sound(x)
    requires status.observedGeneration == lim.generation && UniqueTypes(status.conditions)
    ensures var y := ServeStatus(x, status, at).0; Sound(y) && Grows(x, y)
  {
    hide MergeStatus, ReadAt, KeepsStatus, ResourcesOrdered, Ordered, NoLater;
    hide Grows, Versions, ServeStatus, ResourcePosition;
    var y := ServeStatus(x, status, at).0;
    ServeStatusGrows(x, status, at);
    if y.resource != x.resource {
      var r := StoredResource(x).value;
      assert x.resource[|x.resource| - 1] == Some(r);
      var next := MergeStatus(r, status);
      LaterReads(w, x, lim);
      GrowsPosition(w, x, lim);
      assert lim.generation <= r.lim.generation;
      MergeFacts(r, status);
      MergedIsNext(w, x, lim, r, status);
      ResourceAppended(x.resource, next);
      assert forall i | 0 <= i < |x.resource| :: y.resource[i] == x.resource[i];
    }
  }

  lemma GrowsPosition(w: World, x: World, lim: Limitador)
    requires ReadAt(w, lim) && Grows(w, x)
    ensures 0 < ResourcePosition(x) <= |x.resource|
  {
  }

  lemma MergedIsNext(w: World, x: World, lim: Limitador, r: Resource, status: LimitadorStatus)
    requires Sound(w) && ReadAt(w, lim) && KeepsStatus(w, x) && Sound(x) && StoredResource(x) == Some(r)
    requires lim.generation <= r.lim.generation
    requires status.observedGeneration == lim.generation && UniqueTypes(status.conditions)
    ensures var next := MergeStatus(r, status).lim;
      && NoLater(r.lim, next) && next.status.observedGeneration <= next.generation
      && UniqueTypes(next.status.conditions)
  {
    hide MergeStatus;
    assert x.resource[|x.resource| - 1] == Some(r);
    MergeFacts(r, status);
    MergeKeepsUnique(r, status);
    StatusSinceRead(w, x, lim);
  }

  lemma MergeFacts(r: Resource, status: LimitadorStatus)
    ensures var m := MergeStatus(r, status).lim;
      && m.status.observedGeneration == status.observedGeneration
      && m.generation == r.lim.generation && m.namespace == r.lim.namespace && m.name == r.lim.name
  {
  }

  lemma StatusSinceRead(w: World, x: World, lim: Limitador)
    requires Sound(w) && ReadAt(w, lim) && KeepsStatus(w, x) && StoredResource(x).Some?
    ensures StoredResource(x).value.lim.status.observedGeneration <= lim.generation
  {
    var p := ResourcePosition(w) - 1;
    assert w.resource[..ResourcePosition(w)][p] == w.resource[p];
    var n := |x.resource|;
    if n > |w.resource| {
      assert x.resource[n - 1] == StoredResource(x);
    } else {
      assert x.resource == w.resource;
    }
  }

  lemma ReadIsUnique(w: World, lim: Limitador)
    requires Sound(w) && ReadAt(w, lim)
    ensures UniqueTypes(lim.status.conditions)
  {
    var p := ResourcePosition(w) - 1;
    assert w.resource[..ResourcePosition(w)][p] == w.resource[p];
  }

  lemma PatchStatusExtends(w: World, x: World, lim: Limitador, status: LimitadorStatus, at: nat)
    requires Sound(w) && ReadAt(w, lim) && Grows(w, x) && KeepsStatus(w, x) && Sound(x)
    requires status.observedGeneration == lim.generation && UniqueTypes(status.conditions)
    ensures Extends(x, PatchStatus(x, status, at).0, Allowed(lim))
  {
    hide Sound, Grows, KeepsStatus, Before, ServeStatus, Extends, Allowed, ReadAt, Passes;
    var y := Before(x);
    BeforePasses(x);
    PassesExtends(x, y, Allowed(lim));
    PassesParts(x, y);
    GrowsTransitive(w, x, y);
    KeepsStatusTransitive(w, x, y);
    ServedExtends(w, y, lim, status, at);
    ExtendsTransitive(x, y, ServeStatus(y, status, at).0, Allowed(lim));
  }

  lemma PassesParts(w: World, x: World)
    requires Passes(w, x)
    ensures Grows(w, x) && KeepsStatus(w, x) && (Sound(w) ==> Sound(x))
  {
  }

  lemma PassesExtends(w: World, x: World, events: iset<Event>)
    requires Passes(w, x)
    ensures Extends(w, x, events)
  {
    hide Sound, Grows, KeepsStatus;
  }

  lemma ServedExtends(w: World, y: World, lim: Limitador, status: LimitadorStatus, at: nat)
    requires Sound(w) && ReadAt(w, lim) && Grows(w, y) && KeepsStatus(w, y) && Sound(y)
    requires status.observedGeneration == lim.generation && UniqueTypes(status.conditions)
    ensures Extends(y, ServeStatus(y, status, at).0, Allowed(lim))
  {
    hide Sound, Grows, KeepsStatus, ServeStatus, ReadAt;
    ServeStatusExtends(w, y, lim, status, at);
    ServeStatusJournal(y, status, at);
  }

  lemma ServeStatusJournal(y: World, status: LimitadorStatus, at: nat)
    ensures var z := ServeStatus(y, status, at).0;
      z.journal == y.journal || z.journal == y.journal + [WroteStatus(status, at)]
  {
  }

  lemma StatusEffectExtends(w: World, x: World, lim: Limitador, specErr: Option<Error>)
    requires Sound(w) && ReadAt(w, lim) && Records(w, x, Allowed(lim))
    ensures Extends(x, StatusEffect(x, lim, specErr).0, Allowed(lim))
  {
    hide ReadyCondition, Sound, Grows, KeepsStatus, PatchStatus, Steady, ReadAt, Records, Extends, Allowed;
    var ready := ReadyCondition(x, lim, specErr);
    var y := ready.0;
    ReadyConditionRecords(x, lim, specErr);
    RecordsTransitive(w, x, y, Allowed(lim));
    RecordsExtends(x, y, Allowed(lim));
    RecordsParts(w, y, Allowed(lim));
    if ready.1.Ok? {
      var status := NewStatus(lim, ready.1.value, y.now);
      ReadIsUnique(w, lim);
      SetConditionKeepsOthers(lim.status.conditions, ready.1.value, y.now);
      PatchStatusExtends(w, y, lim, status, y.now);
      ExtendsTransitive(x, y, PatchStatus(y, status, y.now).0, Allowed(lim));
    }
  }

  lemma RecordsParts(w: World, x: World, events: iset<Event>)
    requires Records(w, x, events)
    ensures Grows(w, x) && KeepsStatus(w, x) && (Sound(w) ==> Sound(x))
  {
  }

  lemma ExtendsTransitive(w: World, x: World, y: World, events: iset<Event>)
    requires Extends(w, x, events) && Extends(x, y, events)
    ensures Extends(w, y, events)
  {
    hide Sound;
    GrowsTransitive(w, x, y);
    assert w.journal <= x.journal <= y.journal;
    forall i | |w.journal| <= i < |y.journal|
      ensures y.journal[i] in events
    {
      if i < |x.journal| {
        assert y.journal[i] == x.journal[i];
      }
    }
  }

  lemma ReadResult(w: World, lim: Limitador)
    requires GetLimitador(w).1 == Ok(lim)
    ensures ReadAt(Before(w), lim) && GetLimitador(w).0 == Before(w)
  {
    hide Before;
  }

  lemma PatchStatusJournal(w: World, status: LimitadorStatus, at: nat)
    ensures var y := PatchStatus(w, status, at).0;
      y.journal == w.journal || y.journal == w.journal + [WroteStatus(status, at)]
  {
    hide Before, ServeStatus, Passes;
    BeforePasses(w);
    PassesJournal(w, Before(w));
    ServeStatusJournal(Before(w), status, at);
  }

  lemma ReadyConditionJournal(w: World, lim: Limitador, specErr: Option<Error>)
    ensures var y := ReadyCondition(w, lim, specErr).0;
      y.journal == w.journal ||
      exists d :: y.journal == w.journal + [CheckedDeployment(d)]
  {
    hide Before, View, Passes;
    BeforePasses(w);
    PassesJournal(w, Before(w));
  }

  lemma PassesJournal(w: World, x: World)
    requires Passes(w, x)
    ensures x.journal == w.journal
  {
  }

  /** The status step looks at the Deployment and writes the status, and nothing else. */
  lemma StatusEffectEvents(x: World, lim: Limitador, specErr: Option<Error>)
    ensures var y := StatusEffect(x, lim, specErr).0;
      && x.journal <= y.journal
      && forall i | |x.journal| <= i < |y.journal| :: y.journal[i].CheckedDeployment? || y.journal[i].WroteStatus?
  {
    hide ReadyCondition, NewStatus, Steady, PatchStatus;
    var ready := ReadyCondition(x, lim, specErr);
    ReadyConditionJournal(x, lim, specErr);
    if ready.1.Ok? {
      PatchStatusJournal(ready.0, NewStatus(lim, ready.1.value, ready.0.now), ready.0.now);
    }
  }

  /** If `e` annotates a pod, a read has shown that pod with the selector labels of `lim`. */
  ghost predicate PodShown(w: World, lim: Limitador, e: Event) {
    e.AppliedObject? && e.key.kind == Pod ==> WasShown(w, lim, e.key)
  }

  /** A reconcile of `lim` may have done `e` by now. */
  ghost predicate Allows(w: World, lim: Limitador, e: Event) {
    MayDo(lim, e) && PodShown(w, lim, e)
  }

  lemma AllowsStays(w: World, x: World, lim: Limitador, e: Event)
    requires Grows(w, x) && Allows(w, lim, e)
    ensures Allows(x, lim, e)
  {
    hide Grows, WasShown, MayDo;
    if e.AppliedObject? && e.key.kind == Pod {
      ShownStillShown(w, x, lim, e.key);
    }
  }

  lemma SpecEffectShown(w: World, lim: Limitador)
    ensures var x := SpecEffect(w, lim).world;
      w.journal <= x.journal && forall i | |w.journal| <= i < |x.journal| :: PodShown(x, lim, x.journal[i])
  {
    hide SpecPlan, Exec, AnnotatePods, Before, WasShown, Grows, Sound, KeepsStatus;
    var plan := Exec(w, SpecPlan(lim));
    SpecExecRecords(w, lim);
    GrowsParts(w, plan.0);
    NoPodSpecEvents(lim);
    if plan.1.None? {
      var y := Before(plan.0);
      var pods := AnnotatePods(plan.0, lim);
      AnnotateShown(plan.0, lim);
      GrowsParts(plan.0, pods.world);
      AnnotateGrows(plan.0, lim);
      var x := SpecEffect(w, lim).world;
      NoteGrows(pods.world, SpecCompleted(lim.generation));
      SameGrows(pods.world);
      GrowsTransitive(y, pods.world, x);
      forall i | |w.journal| <= i < |x.journal|
        ensures PodShown(x, lim, x.journal[i])
      {
        if |plan.0.journal| <= i < |pods.world.journal| {
          ShownStillShown(y, x, lim, pods.world.journal[i].key);
        }
      }
    }
  }

  lemma NoPodSpecEvents(lim: Limitador)
    ensures forall e | e in SpecEvents(lim) :: e.AppliedObject? ==> e.key.kind != Pod
  {
  }

  lemma NoteGrows(w: World, e: Event)
    ensures Grows(w, Note(w, e)) && Note(w, e).journal == w.journal + [e]
  {
    var x := Note(w, e);
    assert forall k: Key :: Versions(x, k) == Versions(w, k) && Position(x, k) == Position(w, k);
  }

  /** The pod step goes on from its first call. */
  lemma AnnotateGrows(w: World, lim: Limitador)
    ensures Grows(Before(w), AnnotatePods(w, lim).world)
  {
    hide Grows, Before, Exec, SelectorLabels, PodPlan, View, Passes, Sound, KeepsStatus;
    var x := Before(w);
    SameGrows(x);
    var listed := ListPods(w, lim.namespace, SelectorLabels(LABELS, lim));
    if listed.1.Ok? && listed.1.value != [] && !ReplicasMismatch(lim, |listed.1.value|) {
      ListedAreSelected(x, x.roster, lim.namespace, SelectorLabels(LABELS, lim));
      BeforePasses(x);
      PassesGrows(x, Before(x));
      var got := Get(x, ConfigMapKey(lim));
      if got.1.Ok? {
        var y := Before(x);
        PodExecRecords(y, lim, listed.1.value, got.1.value.version);
        GrowsTransitive(x, y, Exec(y, PodPlan(listed.1.value, got.1.value.version)).0);
      }
    }
  }

  lemma PassesGrows(w: World, x: World)
    requires Passes(w, x)
    ensures Grows(w, x)
  {
  }

  /** One reconcile, wherever it stops: histories only grow and stay sound, and the operator did nothing but what the
      resource it read allows; it annotated no pod that it was not shown with the labels of the resource. */
  lemma ReconcileExtends(w: World)
    requires Sound(w)
    ensures var got := GetLimitador(w); var x := ReconcileEffect(w).world;
      && Grows(w, x) && Sound(x)
      && forall i | |w.journal| <= i < |x.journal| :: got.1.Ok? && Allows(x, got.1.value, x.journal[i])
  {
    hide GetLimitador, SpecEffect, StatusEffect, Sound, Grows, MayDo, WasShown;
    var got := GetLimitador(w);
    GetLimitadorPasses(w);
    if got.1.Ok? && !got.1.value.deleting {
      var lim := got.1.value;
      ReadResult(w, lim);
      var x := SpecEffect(got.0, lim);
      var y := StatusEffect(x.world, lim, x.error).0;
      SpecEffectRecords(got.0, lim);
      SpecEffectShown(got.0, lim);
      StatusEffectExtends(got.0, x.world, lim, x.error);
      StatusEffectEvents(x.world, lim, x.error);
      RecordsExtends(got.0, x.world, Allowed(lim));
      ExtendsTransitive(got.0, x.world, y, Allowed(lim));
      GrowsTransitive(w, got.0, y);
      forall i | |w.journal| <= i < |y.journal|
        ensures PodShown(y, lim, y.journal[i])
      {
        if i < |x.world.journal| {
          assert y.journal[i] == x.world.journal[i];
          if y.journal[i].AppliedObject? && y.journal[i].key.kind == Pod {
            ShownStillShown(x.world, y, lim, y.journal[i].key);
          }
        }
      }
    }
  }

  lemma GetLimitadorPasses(w: World)
    ensures Passes(w, GetLimitador(w).0)
  {
    hide Passes, Before;
    BeforePasses(w);
  }

  /** The same over any number of reconciles. */
  lemma {:induction false} RunSound(w: World, n: nat)
    requires Sound(w)
    ensures Sound(Run(w, n)) && Grows(w, Run(w, n))
  {
    hide Sound, Grows, ReconcileEffect;
    if n == 0 {
      SamePasses(w);
      assert Passes(w, w);
      SameGrows(w);
    } else {
      RunSound(w, n - 1);
      ReconcileExtends(Run(w, n - 1));
      GrowsTransitive(w, Run(w, n - 1), Run(w, n));
    }
  }

  lemma SameGrows(w: World)
    ensures Grows(w, w)
  {
  }

  lemma ReadIsStored(w: World, lim: Limitador)
    requires GetLimitador(w).1 == Ok(lim)
    ensures exists r :: Some(r) in GetLimitador(w).0.resource && r.lim == lim
  {
    hide Before;
    var x := Before(w);
    var p := ResourcePosition(x) - 1;
    assert GetLimitador(w).0 == x && ViewResource(x).Some?;
    assert x.resource[..ResourcePosition(x)][p] == x.resource[p];
    assert x.resource[p] == ViewResource(x);
    var r := ViewResource(x).value;
    assert Some(r) in x.resource && r.lim == lim;
  }

  lemma ReconcileDoes(w: World, i: nat)
    requires Sound(w) && |w.journal| <= i < |ReconcileEffect(w).world.journal|
    ensures var x := ReconcileEffect(w).world;
      GetLimitador(w).1.Ok? && Allows(x, GetLimitador(w).1.value, x.journal[i])
  {
    hide *;
    ReconcileExtends(w);
    var e := ReconcileEffect(w).world.journal[i];
  }

  /** Some version of the resource calls for `e`. */
  ghost predicate Licensed(w: World, e: Event) {
    exists r :: Some(r) in w.resource && Allows(w, r.lim, e)
  }

  /** Everything the operator ever does is licensed by a version the resource really had. */
  lemma {:induction false} RunOnlyDoes(w: World, n: nat)
    requires Sound(w)
    ensures var x := Run(w, n); forall i | |w.journal| <= i < |x.journal| :: Licensed(x, x.journal[i])
  {
    hide Sound, Grows, ReconcileEffect, GetLimitador, Allows;
    if n == 0 {
      assert Run(w, n) == w;
    } else {
      var x, y := Run(w, n - 1), Run(w, n);
      RunSound(w, n - 1);
      RunOnlyDoes(w, n - 1);
      ReconcileExtends(x);
      GrowsParts(w, x);
      GrowsParts(x, y);
      forall i | |w.journal| <= i < |y.journal|
        ensures Licensed(y, y.journal[i])
      {
        if i < |x.journal| {
          assert y.journal[i] == x.journal[i] && Licensed(x, x.journal[i]);
          var r :| Some(r) in x.resource && Allows(x, r.lim, x.journal[i]);
          AllowsStays(x, y, r.lim, x.journal[i]);
          assert Some(r) in y.resource && Allows(y, r.lim, y.journal[i]);
        } else {
          ReconcileDoes(x, i);
          var lim := GetLimitador(x).1.value;
          ReadIsStored(x, lim);
          var r :| Some(r) in GetLimitador(x).0.resource && r.lim == lim;
          ReadSurvives(x, r);
          assert Some(r) in y.resource && Allows(y, r.lim, y.journal[i]);
        }
      }
    }
  }

  /** Over all runs, a pod that never carried the selector labels of this resource is never touched; so the pods of
      another resource, or of somebody else, are safe from it. */
  lemma OtherPodsUntouched(w: World, n: nat, first: Resource, k: Key)
    requires Sound(w) && w.resource != [] && w.resource[0] == Some(first) && k.kind == Pod
    requires var x := Run(w, n);
      forall i | 0 <= i < |Versions(x, k)| :: !Carries(Versions(x, k)[i], SelectorLabels(LABELS, first.lim))
    ensures var x := Run(w, n); forall i | |w.journal| <= i < |x.journal| && x.journal[i].AppliedObject? ::
      x.journal[i].key != k
  {
    hide Run, Grows, MayDo, Carries, SelectorLabels;
    var x := Run(w, n);
    RunSound(w, n);
    RunOnlyDoes(w, n);
    GrowsParts(w, x);
    forall i | |w.journal| <= i < |x.journal| && x.journal[i].AppliedObject?
      ensures x.journal[i].key != k
    {
      assert Licensed(x, x.journal[i]);
      var r :| Some(r) in x.resource && Allows(x, r.lim, x.journal[i]);
      SameSelector(x, first, r);
    }
  }

  lemma SameSelector(x: World, first: Resource, r: Resource)
    requires Sound(x) && x.resource != [] && x.resource[0] == Some(first) && Some(r) in x.resource
    ensures SelectorLabels(LABELS, r.lim) == SelectorLabels(LABELS, first.lim)
  {
    hide APP_NAME;
    var i :| 0 <= i < |x.resource| && x.resource[i] == Some(r);
    assert i > 0 ==> NoLater(first.lim, r.lim);
  }

  lemma GrowsParts(w: World, x: World)
    requires Grows(w, x)
    ensures w.journal <= x.journal && w.resource <= x.resource
  {
  }

  lemma ReadSurvives(w: World, r: Resource)
    requires Sound(w) && Some(r) in GetLimitador(w).0.resource
    ensures Some(r) in ReconcileEffect(w).world.resource
  {
    hide GetLimitador, SpecEffect, StatusEffect, Sound, ReadAt, Extends, Records, Allowed;
    var got := GetLimitador(w);
    GetLimitadorPasses(w);
    if got.1.Ok? && !got.1.value.deleting {
      var lim := got.1.value;
      ReadResult(w, lim);
      var x := SpecEffect(got.0, lim);
      SpecEffectRecords(got.0, lim);
      StatusEffectExtends(got.0, x.world, lim, x.error);
      var y := StatusEffect(x.world, lim, x.error).0;
      RecordsExtends(got.0, x.world, Allowed(lim));
      ExtendsTransitive(got.0, x.world, y, Allowed(lim));
      ExtendsGrows(got.0, y, Allowed(lim));
    }
  }

  lemma ExtendsGrows(w: World, x: World, events: iset<Event>)
    requires Extends(w, x, events)
    ensures Grows(w, x) && (Sound(w) ==> Sound(x))
  {
  }

  /** The operator deletes nothing but the claim and the disruption budget of its resource, and only unwanted ones;
      and nothing it applies or creates carries the delete tag. */
  lemma DeletesOnlyUnwanted(w: World, n: nat, i: nat)
    requires Sound(w) && |w.journal| <= i < |Run(w, n).journal|
    ensures var x := Run(w, n); var e := x.journal[i];
      exists r :: Some(r) in x.resource
        && (e.DeletedObject? ==>
              || (e.key == PVCKey(r.lim) && !HasDisk(r.lim.spec))
              || (e.key == PDBKey(r.lim) && r.lim.spec.podDisruptionBudget.None?))
        && (e.AppliedObject? || e.CreatedObject? ==> DELETE_TAG !in e.fields)
        && (e.CreatedObject? ==> e.key == PVCKey(r.lim) && HasDisk(r.lim.spec)
                                 && Provide(e.key, e.fields) in SpecPlan(r.lim))
  {
    hide Sound, Run, SpecPlan;
    RunOnlyDoes(w, n);
    var x := Run(w, n);
    assert Licensed(x, x.journal[i]);
    var r :| Some(r) in x.resource && Allows(x, r.lim, x.journal[i]);
    PlanContents(r.lim);
  }

  /** Along any run the observed generation never goes back and never exceeds the generation. */
  lemma ObservedGenerationMonotone(w: World, n: nat, i: nat, j: nat)
    requires Sound(w)
    requires i < j < |Run(w, n).resource| && Run(w, n).resource[i].Some? && Run(w, n).resource[j].Some?
    ensures var rs := Run(w, n).resource;
      rs[i].value.lim.status.observedGeneration <= rs[j].value.lim.status.observedGeneration
        <= rs[j].value.lim.generation
  {
    hide Run;
    RunSound(w, n);
  }

  /** The extra generation test of the steady-state check never decides. */
  lemma GenerationTestImplied(lim: Limitador, ready: Condition, now: nat)
    ensures Steady(lim, NewStatus(lim, ready, now)) <==> Equals(lim.status, NewStatus(lim, ready, now))
  {
  }
}
