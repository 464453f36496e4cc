/** What an error leaves behind: earlier steps done, later objects untouched, the error in the status and in the
    result; and what must have been checked before a Deployment is applied. */
module Failures {
  import opened Wrappers
  import opened Fields
  import opened Objects
  import opened LimitadorTypes
  import opened StatusConditions
  import opened K8sObjects
  import opened Cluster
  import opened Reconcilers
  import opened Controller
  import opened Histories
  import opened Runs
  import opened ReadySoundness
  import opened Convergence

  // ---------- error prefix ----------

  /** The plan ran without error up to step `k`, and step `k` failed. */
  ghost predicate StopsAt(w: World, plan: seq<Action>, k: nat) {
    && k < |plan|
    && Exec(w, plan[..k]).1.None?
    && Exec(w, plan) == Perform(Exec(w, plan[..k]).0, plan[k])
  }

  lemma {:induction false} ErrorHasAPlace(w: World, plan: seq<Action>)
    requires Exec(w, plan).1.Some?
    ensures exists k :: StopsAt(w, plan, k)
    decreases |plan|
  {
    hide Perform;
    var done := Perform(w, plan[0]);
    if done.1.Some? {
      assert plan[..0] == [];
      assert StopsAt(w, plan, 0);
    } else {
      ErrorHasAPlace(done.0, plan[1..]);
      var k: nat :| StopsAt(done.0, plan[1..], k);
      assert plan[..k + 1][0] == plan[0] && plan[..k + 1][1..] == plan[1..][..k];
      assert StopsAt(w, plan, k + 1);
    }
  }

  ghost predicate LeftBy(plan: seq<Action>, e: Event) {
    exists a :: a in plan && e in EventsOf(a)
  }

  ghost function PlanEvents(plan: seq<Action>): iset<Event> {
    iset e | LeftBy(plan, e)
  }

  /** When the spec fails, it fails at one step. Either at a step `k` of the plan: then the objects of the earlier steps
      are in their desired state (the claim when reads are fresh), unless somebody else took that away in the turns that
      went by, whatever the user did to the resource; and in every environment the operator has touched nothing that
      belongs to a later step, pods included. Or at the pods: then the same holds of the whole plan, and since then the
      operator has touched nothing but annotations of pods. */
  lemma SpecErrorPrefix(w: World, lim: Limitador)
    requires SpecEffect(w, lim).error.Some?
    ensures (exists k :: StopsAt(w, SpecPlan(lim), k) && UpTo(w, lim, k)) || PodsFailed(w, lim)
  {
    hide SpecPlan, Exec, AnnotatePods, UpTo, StopsAt, Records, ChildrenSpared, Elapsed, Reached, Upholds;
    if Exec(w, SpecPlan(lim)).1.Some? {
      PlanErrorPrefix(w, lim);
    } else {
      var x := Exec(w, SpecPlan(lim)).0;
      SpecEffectUpholds(w, lim, lim);
      AnnotateRecords(x, lim);
    }
  }

  /** The plan was done and the pod step failed. */
  ghost predicate PodsFailed(w: World, lim: Limitador) {
    var plan := Exec(w, SpecPlan(lim)); var x := SpecEffect(w, lim);
    && plan.1.None? && x.error.Some? && x.error == AnnotatePods(plan.0, lim).error
    && (ChildrenSpared(lim, Elapsed(w, x.world)) ==> forall a | a in SpecPlan(lim) :: Reached(x.world, a))
    && Records(plan.0, x.world, PatchEvents(lim))
  }

  lemma PlanErrorPrefix(w: World, lim: Limitador)
    requires Exec(w, SpecPlan(lim)).1.Some?
    ensures exists k :: StopsAt(w, SpecPlan(lim), k) && UpTo(w, lim, k)
  {
    hide SpecPlan, Perform, EventsOf, Records, Reached, ChildrenSpared, Elapsed, Upholds;
    var plan := SpecPlan(lim);
    ErrorHasAPlace(w, plan);
    var k: nat :| StopsAt(w, plan, k);
    var x := Exec(w, plan[..k]).0;
    ExecUpholds(w, plan[..k], lim);
    assert plan[k] in plan;
    PerformUpholds(x, plan[k], lim);
    var y := Perform(x, plan[k]).0;
    LaterSpared(w, x, y, lim);
    if ChildrenSpared(lim, Elapsed(w, y)) {
      UpholdsReached(x, y, lim);
      assert forall i | 0 <= i < k :: plan[i] in plan[..k];
    }
    var events := PlanEvents(plan[..k + 1]);
    forall a | a in plan[..k + 1]
      ensures EventsOf(a) <= events
    {
      assert forall e | e in EventsOf(a) :: LeftBy(plan[..k + 1], e);
    }
    ExecRecords(w, plan[..k], events);
    PerformRecords(x, plan[k]);
    assert plan[..k + 1][k] == plan[k];
    assert forall a | a in plan[..k] :: a in plan[..k + 1];
    RecordsWiden(x, y, EventsOf(plan[k]), events);
    RecordsTransitive(w, x, y, events);
    assert UpTo(w, lim, k);
  }

  ghost predicate UpTo(w: World, lim: Limitador, k: nat)
    requires k < |SpecPlan(lim)|
  {
    var x := Exec(w, SpecPlan(lim)).0;
    && SpecEffect(w, lim).world == x
    && (ChildrenSpared(lim, Elapsed(w, x)) ==> forall i | 0 <= i < k :: Reached(x, SpecPlan(lim)[i]))
    && Records(w, x, PlanEvents(SpecPlan(lim)[..k + 1]))
  }

  /** A spec error is the error of the reconcile, whether or not the status could be written; and the status the
      operator tries to write then says Ready=False with the text of that error. */
  lemma SpecErrorReported(w: World, lim: Limitador)
    requires SpecEffect(w, lim).error.Some? && UniqueTypes(lim.status.conditions)
    ensures var e := SpecEffect(w, lim).error; var x := SpecEffect(w, lim).world;
      && ResourceEffect(w, lim).error == e
      && ReadyCondition(x, lim, e) == (x, Ok(ErrorCondition(e.value)))
      && ReadyConditions(NewStatus(lim, ErrorCondition(e.value), x.now).conditions)
           == [ReadyAfter(lim.status.conditions, ErrorCondition(e.value), x.now)]
      && ReadyAfter(lim.status.conditions, ErrorCondition(e.value), x.now).status == False
      && ReadyAfter(lim.status.conditions, ErrorCondition(e.value), x.now).message == e.value.message
  {
    hide SpecEffect, WriteStatus;
    var e, x := SpecEffect(w, lim).error, SpecEffect(w, lim).world;
    SetLeavesOneReady(lim.status.conditions, ErrorCondition(e.value), x.now);
  }

  /** The flag that a gate of the pod step raises is still raised when the spec step ends, and goes nowhere: it never
      comes with a delay, so the reconcile ends as one that need not be called again. */
  lemma RequeueIsDropped(w: World, lim: Limitador)
    requires Exec(w, SpecPlan(lim)).1.None? && AnnotatePods(Exec(w, SpecPlan(lim)).0, lim).result.requeue
    ensures SpecEffect(w, lim).error.None? && SpecEffect(w, lim).result.requeue
    ensures ResourceEffect(w, lim).result == DONE
  {
    hide SpecPlan, Exec, StatusEffect, AnnotatePods;
    OnlyGatesRequeue(Exec(w, SpecPlan(lim)).0, lim);
  }

  /** The pods are listed, and there are none, or not as many as asked for, or the ConfigMap is missing. */
  predicate AtGate(w: World, lim: Limitador) {
    var listed := ListPods(w, lim.namespace, SelectorLabels(LABELS, lim));
    listed.1.Ok? &&
      (|| listed.1.value == []
       || (lim.spec.replicas.Some? && |listed.1.value| != lim.GetReplicas())
       || var got := Get(listed.0, ConfigMapKey(lim)).1; got.Err? && got.error.NotFound?)
  }

  /** The flag is raised exactly at a gate, without an error and without a delay. */
  lemma OnlyGatesRequeue(w: World, lim: Limitador)
    ensures var x := AnnotatePods(w, lim);
      && (x.result.requeue <==> AtGate(w, lim))
      && (x.result.requeue ==> x.error.None?)
      && x.result.requeueAfter == 0
  {
    hide Get, ListPods, Exec, PodPlan;
  }

  /** So no reconcile ever asks to be called again. */
  lemma NeverRequeues(w: World)
    ensures ReconcileEffect(w).result == DONE
  {
    hide GetLimitador, SpecPlan, Exec, StatusEffect, AnnotatePods;
    var got := GetLimitador(w);
    if got.1.Ok? {
      OnlyGatesRequeue(Exec(got.0, SpecPlan(got.1.value)).0, got.1.value);
    }
  }

  /** A gate of the pod step lets the spec complete without touching a pod. */
  lemma GateTouchesNoPod(w: World, lim: Limitador)
    requires AnnotatePods(w, lim).result.requeue
    ensures AnnotatePods(w, lim).error.None? && AnnotatePods(w, lim).world.journal == w.journal
  {
    hide Before, View, SelectorLabels, Exec, Passes;
    BeforePasses(w);
    BeforePasses(Before(w));
    PassesJournal(w, Before(w));
    PassesJournal(Before(w), Before(Before(w)));
  }

  // ---------- what a Deployment depends on ----------

  /** The storage check succeeds exactly when no secret is needed, or one is named and it exists and has a URL. It is
      read from the API server, never from the cache. */
  predicate StorageUsable(w: World, lim: Limitador) {
    var choice := SelectedStorage(lim.spec);
    UsesRedis(choice) ==>
      && SecretRef(choice).Some?
      && var secret := Stored(w, SecretKeyOf(lim, SecretRef(choice).value));
         secret.Some? && SECRET_URL in secret.value.content.fields
  }

  lemma StorageCheckExactly(w: World, lim: Limitador)
    ensures var done := Exec(w, StorageCheck(lim)); var x := if StorageCheck(lim) == [] then w else done.0;
      && (done.1.None? ==> StorageUsable(x, lim))
      && (FaultOf(w) == NoFault && StorageUsable(x, lim) ==> done.1.None?)
      && (UsesRedis(SelectedStorage(lim.spec)) && SecretRef(SelectedStorage(lim.spec)).None? ==>
            done == (w, Some(Failed(NO_SECRET_REF))))
  {
    hide Before;
    var choice := SelectedStorage(lim.spec);
    if UsesRedis(choice) {
      if SecretRef(choice).None? {
        FailStops(w, NO_SECRET_REF);
      } else {
        SingleAction(w, DemandURL(SecretKeyOf(lim, SecretRef(choice).value)));
      }
    }
  }

  /** A Deployment is applied only after the secret its environment refers to has just been found to hold a URL. */
  lemma DeploymentNeedsSecret(w: World, lim: Limitador)
    requires UsesRedis(SelectedStorage(lim.spec)) && Exec(w, StorageCheck(lim)).1.None?
    ensures var secret := SecretRef(SelectedStorage(lim.spec)); var x := Exec(w, StorageCheck(lim)).0;
      && secret.Some?
      && OptionsOf(lim).envVar == [EnvVar(CommandLine.REDIS_URL_VARIABLE, secret.value, "URL")]
      && StorageUsable(x, lim)
      && Exec(w, DeploymentPlan(lim)) == Perform(x, ActionFor(DeploymentManifest(lim)))
  {
    hide Perform, ActionFor, StorageUsable, CommandLine.PrintFlags, CommandLine.PrintStorage, DeploymentManifest;
    StorageCheckExactly(w, lim);
    ExecConcat(w, StorageCheck(lim), [ActionFor(DeploymentManifest(lim))]);
    SingleAction(Exec(w, StorageCheck(lim)).0, ActionFor(DeploymentManifest(lim)));
  }

  /** Nobody else deletes `k` in the turn of the next call. */
  predicate NotDeletedNext(w: World, k: Key) {
    w.agenda == [] || forall s | s in w.agenda[0].steps :: !(s.WriteObject? && s.key == k && s.content.None?)
  }

  /** With the disk as the selected storage and fresh reads, the claim that the Deployment mounts is in the store once
      the first two steps had no error, whatever anybody did meanwhile; and still is when the API server gets to apply
      the Deployment, which is the very next call, unless somebody deletes it right then. */
  lemma ClaimBeforeMount(w: World, lim: Limitador)
    requires !w.lagging && DiskSelected(lim.spec)
    ensures var first := [ActionFor(ServiceManifest(lim)), ClaimActionFor(PvcManifest(lim))];
      var x := Exec(w, first);
      x.1.None? ==>
        && Stored(x.0, PVCKey(lim)).Some?
        && (NotDeletedNext(x.0, PVCKey(lim)) ==> Stored(Before(x.0), PVCKey(lim)).Some?)
        && StorageCheck(lim) == []
        && Exec(x.0, DeploymentPlan(lim)) == Perform(x.0, ActionFor(DeploymentManifest(lim)))
  {
    hide ActionFor, ClaimActionFor, PvcManifest, ServiceManifest, DeploymentManifest, Perform, Before, Upholds;
    hide Reached, SpecPlan, NotDeletedNext;
    var service, claim := ActionFor(ServiceManifest(lim)), ClaimActionFor(PvcManifest(lim));
    ClaimWanted(lim);
    FirstTwoPlanned(lim);
    ExecConcat(w, [service], [claim]);
    assert [service] + [claim] == [service, claim];
    SingleAction(w, service);
    var y := Perform(w, service).0;
    SingleAction(y, claim);
    PerformUpholds(w, service, lim);
    UpholdsFollows(w, y, lim);
    PerformUpholds(y, claim, lim);
    var x := Perform(y, claim);
    UpholdsFollows(y, x.0, lim);
    SingleAction(x.0, ActionFor(DeploymentManifest(lim)));
    if x.1.None? {
      ProvidedMeansStored(x.0, PVCKey(lim), PvcManifest(lim).Desired());
      if NotDeletedNext(x.0, PVCKey(lim)) {
        BeforeKeepsStored(x.0, PVCKey(lim));
      }
    }
  }

  lemma BeforeKeepsStored(w: World, k: Key)
    requires Stored(w, k).Some? && NotDeletedNext(w, k)
    ensures Stored(Before(w), k).Some?
  {
    hide EnvSteps;
    if w.agenda != [] {
      var x := w.(agenda := w.agenda[1..]);
      assert Stored(x, k) == Stored(w, k);
      EnvStepsKeepStored(x, w.agenda[0].steps, k);
    }
  }

  lemma {:induction false} EnvStepsKeepStored(w: World, steps: seq<EnvStep>, k: Key)
    requires Stored(w, k).Some?
    requires forall s | s in steps :: !(s.WriteObject? && s.key == k && s.content.None?)
    ensures Stored(EnvSteps(w, steps), k).Some?
    decreases |steps|
  {
    hide EnvStepWorld, Stored;
    if steps != [] {
      EnvStepKeepsStored(w, steps[0], k);
      EnvStepsKeepStored(EnvStepWorld(w, steps[0]), steps[1..], k);
    }
  }

  lemma EnvStepKeepsStored(w: World, s: EnvStep, k: Key)
    requires Stored(w, k).Some? && !(s.WriteObject? && s.key == k && s.content.None?)
    ensures Stored(EnvStepWorld(w, s), k).Some?
  {
    hide NextObject, TryApply, Update, EnvResource;
    var x := EnvStepWorld(w, s);
    if Versions(x, k) != Versions(w, k) {
      assert |Versions(x, k)| == |Versions(w, k)| + 1;
    }
  }

  lemma ClaimWanted(lim: Limitador)
    requires HasDisk(lim.spec)
    ensures ClaimActionFor(PvcManifest(lim)) == Provide(PVCKey(lim), PvcManifest(lim).Desired())
  {
    hide PvcManifest, IsTagged;
    PvcWellMade(lim);
    ManifestKeys(lim);
  }

  lemma FirstTwoPlanned(lim: Limitador)
    ensures ActionFor(ServiceManifest(lim)) in SpecPlan(lim) && ClaimActionFor(PvcManifest(lim)) in SpecPlan(lim)
  {
    hide ActionFor, ClaimActionFor, PvcManifest, ServiceManifest, DeploymentPlan;
    assert SpecPlan(lim)[0] == ActionFor(ServiceManifest(lim)) && SpecPlan(lim)[1] == ClaimActionFor(PvcManifest(lim));
  }

  lemma ProvidedMeansStored(w: World, k: Key, fields: FieldMap)
    requires Reached(w, Provide(k, fields)) && !w.lagging
    ensures Stored(w, k).Some?
  {
  }
}
