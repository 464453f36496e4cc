/** The pods after the spec passes of two resources, in either order: the same fields and owners, up to the version
    number in the annotation. */
module PodCommutation {
  import opened Wrappers
  import opened Fields
  import opened Objects
  import opened LimitadorTypes
  import opened K8sObjects
  import opened Cluster
  import opened Reconcilers
  import opened Controller
  import opened Histories
  import opened Runs
  import opened Annotations
  import opened Convergence
  import opened Idempotence
  import opened Independence
  import opened PodLoop
  import opened Commutation

  // ---------- one patch ----------

  function Annotation(version: nat): FieldMap {
    map[LIMITS_VERSION_ANNOTATION := Version(version)]
  }

  /** What a patch to `version` makes of a pod. */
  function PatchedEssence(o: Option<Object>, version: nat): Option<Essence> {
    match o
    case None => None
    case Some(pod) =>
      var c := Apply(pod.content, OPERATOR, Annotation(version));
      var generation :=
        if SpecFields(c.fields) == SpecFields(pod.content.fields) then pod.generation else pod.generation + 1;
      Some(Essence(generation, c, pod.status))
  }

  lemma PatchEssence(w: World, k: Key, version: nat)
    requires Quiet(w) && k.kind == Pod && Stored(w, k).Some?
    ensures var done := Perform(w, ActionFor(PodPatch(k, version)));
      EssenceAt(done.0, k) == PatchedEssence(Stored(w, k), version)
  {
    hide Apply, SpecFields, ActionFor, PodPatch;
    PodPatchAction(k, version);
    QuietView(w, k);
    var c := Apply(StoredContent(w, k), OPERATOR, Annotation(version));
    var y := Note(Put(w, k, c), AppliedObject(k, Annotation(version)));
    assert Stored(y, k) == Stored(Put(w, k, c), k);
    StoredAfterAppend(w, k, Some(NextObject(w, k, c)));
  }

  /** A second patch to the same version changes nothing. */
  lemma PatchTwice(o: Option<Object>, again: Option<Object>, version: nat)
    requires EssenceOf(again) == PatchedEssence(o, version)
    ensures PatchedEssence(again, version) == PatchedEssence(o, version)
  {
    hide Apply, Matches;
    if o.Some? {
      ApplyAchieves(o.value.content, OPERATOR, Annotation(version));
      ApplyNoOpIffMatches(again.value.content, OPERATOR, Annotation(version));
    }
  }

  /** What a pass makes of a pod that it patches or does not patch. */
  function PassEssence(w: World, patched: bool, k: Key, version: nat): Option<Essence> {
    if patched then PatchedEssence(Stored(w, k), version) else EssenceAt(w, k)
  }

  // ---------- the loop ----------

  lemma {:induction false} LoopEssence(w: World, pods: seq<ListedPod>, version: nat)
    requires Quiet(w)
    requires forall p | p in pods :: p.key.kind == Pod && Stored(w, p.key).Some?
    ensures var x := Exec(w, PodPlan(pods, version)).0; forall k: Key ::
      EssenceAt(x, k) == PassEssence(w, k in Stale(pods, version), k, version)
    decreases |pods|
  {
    hide Perform, ActionFor, PodPatch, OutOfDate, Annotates, Stored, PatchedEssence, EssenceOf;
    OutOfDateIff(version);
    if pods != [] {
      var p, rest := pods[0], PodPlan(pods[1..], version);
      assert p in pods;
      if OutOfDate(p, version) {
        var patch := ActionFor(PodPatch(p.key, version));
        var y := Perform(w, patch).0;
        assert PodPlan(pods, version)[0] == patch && PodPlan(pods, version)[1..] == rest;
        QuietPatch(w, p.key, version);
        PatchEssence(w, p.key, version);
        SomeAfterPatch(w, y, p.key, version);
        LoopEssence(y, pods[1..], version);
        PatchTwice(Stored(w, p.key), Stored(y, p.key), version);
        assert forall k: Key | k != p.key :: EssenceAt(y, k) == EssenceAt(w, k);
      } else {
        assert PodPlan(pods, version) == rest;
        LoopEssence(w, pods[1..], version);
      }
    }
  }

  lemma SomeAfterPatch(w: World, y: World, k: Key, version: nat)
    requires OnlyAt(w, y, k) && UpToDate(Stored(y, k), version)
    ensures forall j: Key :: Stored(w, j).Some? ==> Stored(y, j).Some?
  {
    hide Stored;
  }

  // ---------- the pass ----------

  /** The version of the ConfigMap after the plan. */
  function LimitsVersionAfter(x: World, lim: Limitador): nat {
    match Stored(Exec(x, SpecPlan(lim)).0, ConfigMapKey(lim))
    case None => 0
    case Some(cm) => cm.version
  }

  /** The pass of `lim` from `x` patches the pod `k`. */
  predicate Patches(x: World, lim: Limitador, k: Key) {
    var pods := Listed(x, lim);
    && Exec(x, SpecPlan(lim)).1.None?
    && pods != [] && (lim.spec.replicas.Some? ==> |pods| == lim.GetReplicas())
    && k in Stale(pods, LimitsVersionAfter(x, lim))
  }

  /** When the plan had no error, the ConfigMap is there for the pod step to see. */
  lemma ConfigMapSeen(x: World, lim: Limitador)
    requires Quiet(x) && Exec(x, SpecPlan(lim)).1.None?
    ensures var y := Exec(x, SpecPlan(lim)).0; var k := ConfigMapKey(lim);
      Quiet(y) && Get(y, k).0 == y && Stored(y, k).Some? && Get(y, k).1 == Ok(Stored(y, k).value)
  {
    hide SpecPlan, Exec, Stored, ConfigMapManifest, Manifest.Desired, Ordinary, Distinct, Matches;
    hide ChildrenSpared, Asked;
    var y, k := Exec(x, SpecPlan(lim)).0, ConfigMapKey(lim);
    SpecPlanOrdinary(lim);
    ExecFrame(x, SpecPlan(lim));
    ExecUpholds(x, SpecPlan(lim), lim);
    NothingElapsed(x, y, lim);
    ConfigMapPlanned(lim);
    ConfigMapWellMade(lim);
    var a := Enforce(k, ConfigMapManifest(lim).Desired());
    assert Reached(y, a);
    MatchesIsLabelled(Stored(y, k).value.content, OPERATOR, ConfigMapManifest(lim).Desired());
    QuietView(y, k);
  }

  lemma NothingElapsed(x: World, y: World, lim: Limitador)
    requires Quiet(x)
    ensures ChildrenSpared(lim, Elapsed(x, y))
  {
    hide Harmless;
  }

  lemma ConfigMapPlanned(lim: Limitador)
    ensures Enforce(ConfigMapKey(lim), ConfigMapManifest(lim).Desired()) in SpecPlan(lim)
  {
    hide ServiceManifest, PvcManifest, DeploymentManifest, PdbManifest, ClaimActionFor, Manifest.Desired, WellMade;
    ConfigMapWellMade(lim);
    assert ActionFor(ConfigMapManifest(lim)) == Enforce(ConfigMapKey(lim), ConfigMapManifest(lim).Desired());
    assert SpecPlan(lim)[|SpecPlan(lim)| - 2] == ActionFor(ConfigMapManifest(lim));
  }

  lemma PassOnPods(x: World, lim: Limitador)
    requires Quiet(x)
    ensures forall k: Key | k.kind == Pod ::
      EssenceAt(SpecEffect(x, lim).world, k) == PassEssence(x, Patches(x, lim, k), k, LimitsVersionAfter(x, lim))
  {
    hide SpecPlan, Exec, Stored, EssenceOf, PatchedEssence, SelectorLabels, ListedFrom, SpecEffect, Get, Children;
    hide OutOfDate;
    SpecParts(x, lim);
    var plan := Exec(x, SpecPlan(lim));
    var y, pods := plan.0, Listed(x, lim);
    PodsOutsideChildren(lim);
    if plan.1.None? {
      ConfigMapSeen(x, lim);
      PlanKeepsPods(x, lim, lim);
      QuietView(y, ConfigMapKey(lim));
      if pods != [] && !ReplicasMismatch(lim, |pods|) {
        var version := LimitsVersionAfter(x, lim);
        PodsAreStored(y, lim, version);
        LoopEssence(y, pods, version);
        assert AnnotatePods(y, lim).world == Exec(y, PodPlan(pods, version)).0;
      } else {
        assert AnnotatePods(y, lim).world == y;
      }
    }
  }

  lemma PodsOutsideChildren(lim: Limitador)
    ensures forall k: Key | k.kind == Pod :: k !in Children(lim)
  {
  }

  // ---------- versions ----------

  /** After a plan without error an enforced object is the very version it was, or newer than anything before. */
  lemma {:induction false} EnforcedVersion(w: World, plan: seq<Action>, k: Key, fields: FieldMap)
    requires Quiet(w) && AllOrdinary(plan) && Distinct(plan) && Enforce(k, fields) in plan && Exec(w, plan).1.None?
    ensures var o := Stored(Exec(w, plan).0, k);
      && o.Some?
      && (if Stored(w, k).Some? && Matches(Stored(w, k).value.content, OPERATOR, fields) then o == Stored(w, k)
          else o.value.version > w.clock)
    decreases |plan|
  {
    hide Perform, Stored, Ordinary, Matches;
    var a, rest := plan[0], plan[1..];
    assert a in plan && Enforce(k, fields) in plan;
    var done := Perform(w, a);
    QuietPerform(w, a);
    ExecFrame(done.0, rest);
    if a == Enforce(k, fields) {
      OrdinaryEnforce(k, fields);
      EnforceVersion(w, k, fields);
      assert forall i | 0 <= i < |rest| :: rest[i] == plan[i + 1] && !KeyOf(rest[i], k);
    } else {
      var i :| 0 <= i < |plan| && plan[i] == Enforce(k, fields);
      assert rest[i - 1] == plan[i] && ActionKey(plan[i]) == Some(k);
      PerformClock(w, a);
      assert !KeyOf(a, k) by { assert ActionKey(plan[0]).Some? ==> ActionKey(plan[0]) != ActionKey(plan[i]); }
      assert Distinct(rest) by { DistinctRest(plan); }
      EnforcedVersion(done.0, rest, k, fields);
    }
  }

  lemma OrdinaryEnforce(k: Key, fields: FieldMap)
    requires Ordinary(Enforce(k, fields))
    ensures NoRoot(fields) && k.kind != Pod
  {
  }

  lemma PerformClock(w: World, a: Action)
    ensures w.clock <= Perform(w, a).0.clock
  {
    hide Perform, EventsOf, Sound, KeepsStatus;
    PerformRecords(w, a);
  }

  lemma EnforceVersion(w: World, k: Key, fields: FieldMap)
    requires Quiet(w) && NoRoot(fields) && k.kind != Pod
    ensures var o := Stored(Perform(w, Enforce(k, fields)).0, k);
      && o.Some?
      && (if Stored(w, k).Some? && Matches(Stored(w, k).value.content, OPERATOR, fields) then o == Stored(w, k)
          else o.value.version > w.clock)
  {
    hide Apply, Matches, SpecFields;
    QuietView(w, k);
    var c := Apply(StoredContent(w, k), OPERATOR, fields);
    ApplyNoOpIffMatches(StoredContent(w, k), OPERATOR, fields);
    var y := Note(Put(w, k, c), AppliedObject(k, fields));
    assert Stored(y, k) == Stored(Put(w, k, c), k);
    StoredAfterAppend(w, k, Some(NextObject(w, k, c)));
  }

  // ---------- either order ----------

  /** The annotations in use are versions handed out already. */
  ghost predicate AnnotationsHandedOut(w: World) {
    forall k: Key :: k.kind == Pod && Stored(w, k).Some? ==> HandedOut(Stored(w, k).value, w.clock)
  }

  predicate HandedOut(o: Object, clock: nat) {
    match PodVersion(o)
    case Some(Version(v)) => v <= clock
    case _ => true
  }

  /** The same but for the number in the annotation. */
  predicate Alike(d: Option<Essence>, e: Option<Essence>) {
    match (d, e)
    case (Some(x), Some(y)) =>
      && x.generation == y.generation && x.status == y.status
      && x.content.owned == y.content.owned && x.content.fields.Keys == y.content.fields.Keys
      && forall p | p in x.content.fields :: SameButNumber(p, x.content.fields[p], y.content.fields[p])
    case (None, None) => true
    case _ => false
  }

  predicate SameButNumber(p: Path, u: Value, v: Value) {
    u == v || (p == LIMITS_VERSION_ANNOTATION && u.Version? && v.Version?)
  }

  lemma PatchedAlike(o: Object, v1: nat, v2: nat)
    requires PodVersion(o) != Some(Version(v1)) && PodVersion(o) != Some(Version(v2))
    ensures Alike(PatchedEssence(Some(o), v1), PatchedEssence(Some(o), v2))
  {
    var c, p := o.content, LIMITS_VERSION_ANNOTATION;
    assert Overwritten(c, Annotation(v1)) == Overwritten(c, Annotation(v2));
    assert Annotation(v1).Keys == Annotation(v2).Keys;
    assert OwnersAfter(c, OPERATOR, Annotation(v1)) == OwnersAfter(c, OPERATOR, Annotation(v2));
    var a1, a2 := Apply(c, OPERATOR, Annotation(v1)), Apply(c, OPERATOR, Annotation(v2));
    assert a1.fields.Keys == a2.fields.Keys;
    assert METADATA in Lineage(p);
    assert SpecFields(a1.fields) == SpecFields(a2.fields);
  }

  /** The pass of `a` patches the same pods to the same effect whether or not `b` has passed before. */
  lemma PatchesAlike(w: World, a: Limitador, b: Limitador, k: Key)
    requires Quiet(w) && Different(a, b) && AnnotationsHandedOut(w) && k.kind == Pod
    requires AmongPods(Listed(w, a), k)
    ensures Alike(EssenceAt(SpecEffect(w, a).world, k),
                  EssenceAt(SpecEffect(SpecEffect(w, b).world, a).world, k))
  {
    hide SpecPlan, Exec, Stored, EssenceOf, PatchedEssence, SelectorLabels, ListedFrom, SpecEffect, Agrees, Alike;
    hide ConfigMapManifest, Manifest.Desired, Matches, Stale, Children, AnnotationsHandedOut, PodsSettled;
    var x := SpecEffect(w, b).world;
    SpecSettles(w, b);
    LeavesOthersAlone(w, a, b);
    assert Belongs(w, a, k);
    PassOnPods(w, a);
    PassOnPods(x, a);
    SpecSettles(w, a);
    SpecSettles(x, a);
    PassesCommute(w, a, b);
    var v1, v2 := LimitsVersionAfter(w, a), LimitsVersionAfter(x, a);
    AlikeItself(EssenceAt(w, k));
    if Exec(w, SpecPlan(a)).1.None? {
      VersionsEitherWay(w, x, a, b);
      if v1 == v2 {
        AlikeItself(PatchedEssence(Stored(w, k), v1));
      } else {
        AllStale(w, Listed(w, a), a, v1);
        AllStale(w, Listed(w, a), a, v2);
        ListedPodStored(w, a, k);
        NewIsNotHeld(w, k, v1);
        NewIsNotHeld(w, k, v2);
        PatchedAlike(Stored(w, k).value, v1, v2);
      }
    }
  }

  lemma AlikeItself(e: Option<Essence>)
    ensures Alike(e, e)
  {
  }

  lemma VersionsEitherWay(w: World, x: World, a: Limitador, b: Limitador)
    requires Quiet(w) && Different(a, b) && x == SpecEffect(w, b).world
    requires Exec(w, SpecPlan(a)).1.None? && Exec(x, SpecPlan(a)).1.None?
    ensures var v1, v2 := LimitsVersionAfter(w, a), LimitsVersionAfter(x, a);
      v1 == v2 || (v1 > w.clock && v2 > w.clock)
  {
    hide SpecPlan, Exec, Stored, SpecEffect, ConfigMapManifest, Manifest.Desired, Matches, Agrees, Children;
    hide PodsSettled, Ordinary, Distinct;
    var k, fields := ConfigMapKey(a), ConfigMapManifest(a).Desired();
    SpecSettles(w, b);
    LeavesOthersAlone(w, a, b);
    ConfigMapIsChild(a);
    assert Belongs(w, a, k);
    SpecPlanOrdinary(a);
    ConfigMapPlanned(a);
    EnforcedVersion(w, SpecPlan(a), k, fields);
    EnforcedVersion(x, SpecPlan(a), k, fields);
    SpecEffectClock(w, b);
  }

  lemma ConfigMapIsChild(a: Limitador)
    ensures ConfigMapKey(a) in Children(a)
  {
  }

  lemma SpecEffectClock(w: World, b: Limitador)
    ensures w.clock <= SpecEffect(w, b).world.clock
  {
    hide SpecEffect, Sound, KeepsStatus, Allowed;
    SpecEffectRecords(w, b);
  }

  lemma ListedPodStored(w: World, a: Limitador, k: Key)
    requires Quiet(w) && AmongPods(Listed(w, a), k)
    ensures Stored(w, k).Some? && k.kind == Pod
  {
    hide View, ListedFrom, SelectorLabels, Stored;
    PodsAreStored(w, a, 0);
  }

  lemma NewIsNotHeld(w: World, k: Key, v: nat)
    requires AnnotationsHandedOut(w) && k.kind == Pod && Stored(w, k).Some? && v > w.clock
    ensures PodVersion(Stored(w, k).value) != Some(Version(v))
  {
    hide Stored;
    assert HandedOut(Stored(w, k).value, w.clock);
  }

  /** A version that was not handed out yet is news to every listed pod. */
  lemma AllStale(w: World, pods: seq<ListedPod>, a: Limitador, v: nat)
    requires Quiet(w) && AnnotationsHandedOut(w) && v > w.clock && pods == Listed(w, a)
    ensures forall k :: k in Stale(pods, v) <==> AmongPods(pods, k)
  {
    hide View, ListedFrom, SelectorLabels, Stored, AnnotationsHandedOut;
    ListedAreSelected(w, w.roster, a.namespace, SelectorLabels(LABELS, a));
    forall p | p in pods
      ensures OutOfDate(p, v)
    {
      QuietView(w, p.key);
      NewIsNotHeld(w, p.key, v);
    }
    StaleMembers(pods, v);
  }

  // ---------- pods of the other resource, and of neither ----------

  lemma NotListedForOther(w: World, x: World, a: Limitador, b: Limitador, k: Key)
    requires Quiet(w) && Quiet(x) && Different(a, b)
    requires AmongPods(Listed(w, a), k) && OnlyAnnotated(Stored(w, k), Stored(x, k))
    ensures !AmongPods(Listed(x, b), k)
  {
    hide View, Stored, ListedFrom, LabelFiltered;
    var forA, forB := SelectorLabels(LABELS, a), SelectorLabels(LABELS, b);
    ListedAreSelected(w, w.roster, a.namespace, forA);
    ListedAreSelected(x, x.roster, b.namespace, forB);
    QuietView(w, k);
    QuietView(x, k);
    var nameLabel := At(LABELS, LimitadorResource);
    assert nameLabel in forA && nameLabel in forB && nameLabel != LIMITS_VERSION_ANNOTATION;
    var p :| p in Listed(w, a) && p.key == k;
    assert p.state.content.fields[nameLabel] == Text(a.name);
    forall q | q in Listed(x, b)
      ensures q.key != k
    {
      assert q.state.content.fields[nameLabel] == Text(b.name);
    }
  }

  /** A pass changes a pod only if it is listed for its resource, and then only by annotating it. */
  lemma PassElsewhere(x: World, lim: Limitador, k: Key)
    requires Quiet(x) && k.kind == Pod
    ensures Quiet(SpecEffect(x, lim).world)
    ensures OnlyAnnotated(Stored(x, k), Stored(SpecEffect(x, lim).world, k))
    ensures !AmongPods(Listed(x, lim), k) ==> Stored(SpecEffect(x, lim).world, k) == Stored(x, k)
  {
    hide SpecPlan, Exec, AnnotatePods, Stored, Children, SelectorLabels, ListedFrom, SpecEffect, OnlyAnnotated;
    SpecParts(x, lim);
    PlanKeepsPods(x, lim, lim);
    PodStepElsewhere(Exec(x, SpecPlan(lim)).0, lim);
    NoPodAmongChildren(lim, k);
    SameOnlyAnnotated(Stored(x, k));
  }

  /** A pod of `a` after both passes, `b` second: as the pass of `a` left it. */
  lemma SecondPassSpares(w: World, a: Limitador, b: Limitador, k: Key)
    requires Quiet(w) && Different(a, b) && k.kind == Pod && AmongPods(Listed(w, a), k)
    ensures Stored(SpecEffect(SpecEffect(w, a).world, b).world, k) == Stored(SpecEffect(w, a).world, k)
  {
    hide Stored, SpecEffect, OnlyAnnotated, Listed;
    var x := SpecEffect(w, a).world;
    PassElsewhere(w, a, k);
    NotListedForOther(w, x, a, b, k);
    PassElsewhere(x, b, k);
  }

  /** Whole spec passes of two resources commute on the pods as well: in both orders every pod has the same owners, the
      same fields and the same values, up to the number in the annotation. */
  lemma PodsCommute(w: World, a: Limitador, b: Limitador, k: Key)
    requires Quiet(w) && Different(a, b) && AnnotationsHandedOut(w) && k.kind == Pod
    ensures Alike(EssenceAt(SpecEffect(SpecEffect(w, a).world, b).world, k),
                  EssenceAt(SpecEffect(SpecEffect(w, b).world, a).world, k))
  {
    hide Stored, SpecEffect, OnlyAnnotated, Listed, Alike, EssenceOf, AnnotationsHandedOut;
    if AmongPods(Listed(w, a), k) {
      SecondPassSpares(w, a, b, k);
      PatchesAlike(w, a, b, k);
    } else if AmongPods(Listed(w, b), k) {
      SecondPassSpares(w, b, a, k);
      PatchesAlike(w, b, a, k);
      AlikeSymmetric(EssenceAt(SpecEffect(w, b).world, k),
                     EssenceAt(SpecEffect(SpecEffect(w, a).world, b).world, k));
    } else {
      PassElsewhere(w, a, k);
      PassElsewhere(w, b, k);
      LeavesOthersAlone(w, a, b);
      LeavesOthersAlone(w, b, a);
      PassElsewhere(SpecEffect(w, a).world, b, k);
      PassElsewhere(SpecEffect(w, b).world, a, k);
      AlikeItself(EssenceAt(w, k));
    }
  }

  lemma AlikeSymmetric(d: Option<Essence>, e: Option<Essence>)
    requires Alike(d, e)
    ensures Alike(e, d)
  {
  }
}
