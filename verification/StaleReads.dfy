/** What a lagging cache can bring about: a whole reconcile that reports Ready=True about a Deployment it has just
    changed. */
module StaleReads {
  import opened Wrappers
  import opened Fields
  import opened Objects
  import opened LimitadorTypes
  import opened K8sObjects
  import opened Cluster
  import opened Reconcilers
  import opened Controller
  import opened Histories
  import opened Runs
  import opened ReadySoundness
  import opened Convergence
  import opened Idempotence

  // ---------- one action when nothing interferes, whatever the cache shows ----------

  /** From `w` to `x` only the object `k` may have a new version, and reads show no more than before. */
  ghost predicate StillAt(w: World, x: World, k: Key) {
    && x.agenda == [] && x.resource == w.resource && x.resourceSeen == w.resourceSeen && x.lagging == w.lagging
    && x.roster == w.roster && x.seen == w.seen && x.now == w.now
    && Versions(w, k) <= Versions(x, k)
    && forall j: Key | j != k :: Versions(x, j) == Versions(w, j)
  }

  lemma PutStillAt(w: World, k: Key, c: Content, e: Event)
    requires w.agenda == []
    ensures StillAt(w, Note(Put(w, k, c), e), k)
  {
    hide NextObject;
    var x := Note(Put(w, k, c), e);
    assert forall j: Key | j != k :: Versions(x, j) == Versions(w, j);
  }

  /** Applying and discarding always succeed, and so does providing what was never there. */
  lemma StillPerform(w: World, a: Action, k: Key)
    requires w.agenda == [] && Ordinary(a) && KeyOf(a, k)
    requires a.Provide? ==> Versions(w, k) == []
    ensures var done := Perform(w, a);
      && StillAt(w, done.0, k) && done.1.None?
      && (a.Enforce? ==> Stored(done.0, k) == Stored(Put(w, k, Apply(StoredContent(w, k), OPERATOR, a.fields)), k))
  {
    hide Put, Apply;
    match a
    case Enforce(_, fields) =>
      var c := Apply(StoredContent(w, k), OPERATOR, fields);
      PutStillAt(w, k, c, AppliedObject(k, fields));
      assert Versions(Note(Put(w, k, c), AppliedObject(k, fields)), k) == Versions(Put(w, k, c), k);
    case Discard(_) =>
      if Stored(w, k).Some? {
        RemoveStillAt(w, k);
      }
    case Provide(_, fields) =>
      assert View(w, k).None?;
      PutStillAt(w, k, Content(fields, map[CREATOR := fields.Keys]), CreatedObject(k, fields));
  }

  lemma RemoveStillAt(w: World, k: Key)
    requires w.agenda == []
    ensures StillAt(w, Note(Remove(w, k), DeletedObject(k)), k)
  {
    var x := Note(Remove(w, k), DeletedObject(k));
    assert forall j: Key | j != k :: Versions(x, j) == Versions(w, j);
  }

  // ---------- the start ----------

  const OLD_STATUS := DeploymentStatus(1, 1, 1, 0, [DeploymentCondition(AVAILABLE, True, "")])
  const OLD_DEPLOYMENT := Object(1, 1, Content(map[APP_LABEL := APP_NAME], map[]), OLD_STATUS)

  /** A new resource; a Deployment of its name that is available as it is; and a cache that has been shown both and
      from now on shows nothing more. */
  function Outdated(lim: Limitador): World {
    World(map[DeploymentKey(lim) := [Some(OLD_DEPLOYMENT)]], map[DeploymentKey(lim) := 1],
          [Some(Resource(lim, {}, {}))], 1, [], 1, 0, true, [], [])
  }

  lemma OldIsAvailable()
    ensures Available(OLD_DEPLOYMENT) && Unavailability(OLD_DEPLOYMENT).None? && HasAppLabel(OLD_DEPLOYMENT.content)
  {
    hide AVAILABLE;
    assert IsFirst(OLD_STATUS.conditions, AVAILABLE, 0);
    AvailableIff(OLD_DEPLOYMENT);
  }

  // ---------- the plan ----------

  /** Where the plan of a resource without Redis leads from there. */
  ghost predicate Replaced(lim: Limitador, x: World) {
    var k := DeploymentKey(lim); var w := Outdated(lim);
    && x.agenda == [] && x.lagging && x.seen == w.seen && x.roster == []
    && x.resource == w.resource && x.resourceSeen == 1
    && [Some(OLD_DEPLOYMENT)] <= Versions(x, k)
    && Stored(x, k).Some? && !Available(Stored(x, k).value)
  }

  lemma PlanReplaces(lim: Limitador)
    requires !UsesRedis(SelectedStorage(lim.spec))
    ensures var done := Exec(Outdated(lim), SpecPlan(lim)); done.1.None? && Replaced(lim, done.0)
  {
    hide SpecPlan, Perform, ActionFor, ClaimActionFor, Available, Outdated, Stored, Ordinary, OLD_DEPLOYMENT;
    hide ServiceManifest, PvcManifest, DeploymentManifest, ConfigMapManifest, PdbManifest, Manifest.Desired;
    var w, k := Outdated(lim), DeploymentKey(lim);
    OutdatedFacts(lim);
    SpecPlanStages(w, lim);
    ManifestActions(lim);
    var service, claim := ActionFor(ServiceManifest(lim)), ClaimActionFor(PvcManifest(lim));
    var deployment, limits := ActionFor(DeploymentManifest(lim)), ActionFor(ConfigMapManifest(lim));
    var pdb := ActionFor(PdbManifest(lim));
    StillPerform(w, service, ServiceKey(lim));
    var w1 := Perform(w, service).0;
    StillPerform(w1, claim, PVCKey(lim));
    var w2 := Perform(w1, claim).0;
    assert Versions(w2, k) == [Some(OLD_DEPLOYMENT)];
    StoredIsLast(w2, k, OLD_DEPLOYMENT);
    StillPerform(w2, deployment, k);
    var w3 := Perform(w2, deployment).0;
    SingleAction(w2, deployment);
    assert DeploymentPlan(lim) == [deployment];
    ApplyReplaces(w2, lim);
    StillPerform(w3, limits, ConfigMapKey(lim));
    var w4 := Perform(w3, limits).0;
    StillPerform(w4, pdb, PDBKey(lim));
    var w5 := Perform(w4, pdb).0;
    assert Versions(w5, k) == Versions(w3, k);
    SameVersionsSameStored(w3, w5, k);
  }

  lemma StoredIsLast(w: World, k: Key, o: Object)
    requires Versions(w, k) == [Some(o)]
    ensures Stored(w, k) == Some(o)
  {
  }

  lemma SameVersionsSameStored(w: World, x: World, k: Key)
    requires Versions(w, k) == Versions(x, k)
    ensures Stored(w, k) == Stored(x, k)
  {
  }

  lemma OutdatedFacts(lim: Limitador)
    ensures var w, k := Outdated(lim), DeploymentKey(lim);
      && w.agenda == [] && w.lagging && w.roster == [] && w.resourceSeen == 1
      && Versions(w, k) == [Some(OLD_DEPLOYMENT)] && Versions(w, PVCKey(lim)) == []
  {
  }

  lemma ManifestActions(lim: Limitador)
    ensures Ordinary(ActionFor(ServiceManifest(lim))) && KeyOf(ActionFor(ServiceManifest(lim)), ServiceKey(lim))
    ensures Ordinary(ClaimActionFor(PvcManifest(lim))) && KeyOf(ClaimActionFor(PvcManifest(lim)), PVCKey(lim))
    ensures ActionFor(DeploymentManifest(lim)) == Enforce(DeploymentKey(lim), DeploymentManifest(lim).Desired())
    ensures Ordinary(ActionFor(DeploymentManifest(lim)))
    ensures Ordinary(ActionFor(ConfigMapManifest(lim))) && KeyOf(ActionFor(ConfigMapManifest(lim)), ConfigMapKey(lim))
    ensures Ordinary(ActionFor(PdbManifest(lim))) && KeyOf(ActionFor(PdbManifest(lim)), PDBKey(lim))
    ensures forall m :: !ActionFor(m).Provide?
  {
    hide ServiceManifest, PvcManifest, DeploymentManifest, ConfigMapManifest, PdbManifest, Manifest.Desired, IsTagged;
    ManifestKeys(lim);
    DeploymentWellMade(lim);
    PlannedOrdinary(lim);
    AllPlanned(lim);
  }

  lemma AllPlanned(lim: Limitador)
    ensures ActionFor(ServiceManifest(lim)) in SpecPlan(lim) && ClaimActionFor(PvcManifest(lim)) in SpecPlan(lim)
    ensures ActionFor(DeploymentManifest(lim)) in SpecPlan(lim) && ActionFor(ConfigMapManifest(lim)) in SpecPlan(lim)
    ensures ActionFor(PdbManifest(lim)) in SpecPlan(lim)
  {
    hide ActionFor, ClaimActionFor, ServiceManifest, PvcManifest, DeploymentManifest, ConfigMapManifest, PdbManifest;
    assert ActionFor(DeploymentManifest(lim)) in DeploymentPlan(lim);
  }

  /** The apply adds the replicas at least, so the Deployment changes, and nobody has reported on the change. */
  lemma ApplyReplaces(w: World, lim: Limitador)
    requires Stored(w, DeploymentKey(lim)) == Some(OLD_DEPLOYMENT)
    ensures var k := DeploymentKey(lim);
      var x := Put(w, k, Apply(StoredContent(w, k), OPERATOR, DeploymentManifest(lim).Desired()));
      Stored(x, k).Some? && !Available(Stored(x, k).value)
  {
    hide Put, Apply, Available, DeploymentFields, ImageOf, OptionsOf, WellMade, Stored;
    var k, d := DeploymentKey(lim), DeploymentManifest(lim).Desired();
    UntaggedDesired(DeploymentManifest(lim));
    DeploymentWellMade(lim);
    WellMadeHasNoRoot(d);
    StrategyInDeployment(lim, ImageOf(lim), OptionsOf(lim));
    ApplyAchieves(OLD_DEPLOYMENT.content, OPERATOR, d);
    var c := Apply(OLD_DEPLOYMENT.content, OPERATOR, d);
    assert REPLICAS in c.fields && METADATA !in Lineage(REPLICAS);
    assert REPLICAS in SpecFields(c.fields);
    assert REPLICAS != APP_LABEL;
    assert REPLICAS !in SpecFields(OLD_DEPLOYMENT.content.fields);
    ChangedSpecIsUnavailable(w, k, c);
  }

  lemma WellMadeHasNoRoot(fields: FieldMap)
    requires WellMade(fields)
    ensures NoRoot(fields)
  {
  }

  // ---------- the whole reconcile ----------

  /** A sound world with its resource stored, from which one reconcile ends with Ready=True stored for the current
      generation, while the stored Deployment is not available. */
  ghost predicate Misled(w: World, lim: Limitador) {
    var x := ReconcileEffect(w).world; var d := Stored(x, DeploymentKey(lim));
    && Sound(w) && StoredResource(w).Some? && StoredResource(w).value.lim == lim
    && StoredResource(x).Some? && ReadyTrue(StoredResource(x).value.lim.status)
    && StoredResource(x).value.lim.status.observedGeneration == StoredResource(x).value.lim.generation
    && d.Some? && !Available(d.value)
  }

  /** The soundness of Ready speaks of a version of the Deployment that was stored, and cannot speak of the last one:
      every new resource without Redis can be misreported. */
  lemma StaleReadMisleads(lim: Limitador)
    requires lim.status == LimitadorStatus(0, [], None) && !lim.deleting && !UsesRedis(SelectedStorage(lim.spec))
    ensures exists w :: Misled(w, lim)
  {
    hide SpecPlan, Exec, Replaced, Sound, StatusEffect, Available, ReadyTrue;
    var w := Outdated(lim);
    OutdatedIsSound(lim);
    assert w.resource[..1] == w.resource;
    assert GetLimitador(w) == (w, Ok(lim));
    PlanReplaces(lim);
    var x := Exec(w, SpecPlan(lim)).0;
    AtTheGate(lim, x);
    var y := Note(x, SpecCompleted(lim.generation));
    assert SpecEffect(w, lim) == StepOutcome(y, None, AGAIN);
    StatusMisleads(lim, x, y);
    assert Misled(w, lim);
  }

  lemma OutdatedIsSound(lim: Limitador)
    requires lim.status == LimitadorStatus(0, [], None)
    ensures Sound(Outdated(lim)) && StoredResource(Outdated(lim)) == Some(Resource(lim, {}, {}))
  {
  }

  lemma AtTheGate(lim: Limitador, x: World)
    requires Replaced(lim, x)
    ensures AnnotatePods(x, lim) == StepOutcome(x, None, AGAIN)
  {
    hide Available, SelectorLabels;
  }

  lemma StatusMisleads(lim: Limitador, x: World, y: World)
    requires Replaced(lim, x) && y == Note(x, SpecCompleted(lim.generation))
    requires lim.status == LimitadorStatus(0, [], None)
    ensures var z := StatusEffect(y, lim, None).0; var d := Stored(z, DeploymentKey(lim));
      && StatusEffect(y, lim, None).1.None?
      && StoredResource(z).Some? && ReadyTrue(StoredResource(z).value.lim.status)
      && StoredResource(z).value.lim.status.observedGeneration == StoredResource(z).value.lim.generation
      && d.Some? && !Available(d.value)
  {
    hide Available, MergeStatus, NewStatus, Unavailability, Steady, HasAppLabel, AVAILABLE, OLD_DEPLOYMENT;
    var k, r := DeploymentKey(lim), Resource(lim, {}, {});
    OldIsAvailable();
    assert Versions(y, k) == Versions(x, k) && Versions(y, k)[..1] == [Some(OLD_DEPLOYMENT)];
    assert Position(y, k) == 1;
    assert View(y, k) == Some(OLD_DEPLOYMENT);
    assert Get(y, k) == (y, Ok(OLD_DEPLOYMENT));
    var z := Note(y, CheckedDeployment(Some(OLD_DEPLOYMENT)));
    assert ReadyCondition(y, lim, None) == (z, Ok(READY_CONDITION));
    var status := NewStatus(lim, READY_CONDITION, z.now);
    ReadyWritten(lim, r, z.now);
    assert !Steady(lim, status);
    assert StatusEffect(y, lim, None).0 == ServeStatus(z, status, z.now).0;
    assert Stored(ServeStatus(z, status, z.now).0, k) == Stored(x, k);
  }

  lemma ReadyWritten(lim: Limitador, r: Resource, now: nat)
    requires lim.status == LimitadorStatus(0, [], None) && r.lim == lim
    ensures var status := NewStatus(lim, READY_CONDITION, now); var m := MergeStatus(r, status).lim;
      !Steady(lim, status) && ReadyTrue(m.status) && m.status.observedGeneration == m.generation
  {
    var status := NewStatus(lim, READY_CONDITION, now);
    MergeFacts(r, status);
    SetLeavesOneReady(lim.status.conditions, READY_CONDITION, now);
    MergeReady(r, status);
  }
}
