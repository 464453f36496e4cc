/** Whole spec passes of two different resources, pods included: neither disturbs what the other has reached, and the
    order does not matter. Only version numbers, which annotations carry, depend on it. */
module Commutation {
  import opened Wrappers
  import opened Fields
  import opened Objects
  import opened LimitadorTypes
  import opened K8sObjects
  import opened Cluster
  import opened Reconcilers
  import opened Controller
  import opened Runs
  import opened Convergence
  import opened Idempotence
  import opened Independence

  // ---------- what a pod step leaves alone ----------

  ghost predicate AmongPods(pods: seq<ListedPod>, k: Key) {
    exists p | p in pods :: p.key == k
  }

  /** From `w` to `x` nothing but annotations of the pods in `pods` has changed. */
  ghost predicate OnlyThesePods(w: World, x: World, pods: seq<ListedPod>) {
    && Quiet(x) && x.resource == w.resource && x.roster == w.roster
    && forall k: Key :: OnlyAnnotated(Stored(w, k), Stored(x, k))
                     && (!AmongPods(pods, k) ==> Stored(x, k) == Stored(w, k))
  }

  lemma {:induction false} LoopElsewhere(w: World, pods: seq<ListedPod>, version: nat)
    requires Quiet(w)
    requires forall p | p in pods :: p.key.kind == Pod && Stored(w, p.key).Some?
    ensures OnlyThesePods(w, Exec(w, PodPlan(pods, version)).0, pods)
    decreases |pods|
  {
    hide Perform, ActionFor, PodPatch, OutOfDate, Stored, UpToDate, OnlyAnnotated;
    if pods == [] {
      Unchanged(w, []);
    } else {
      var p, rest := pods[0], pods[1..];
      assert p in pods;
      if OutOfDate(p, version) {
        var patch := ActionFor(PodPatch(p.key, version));
        var done := Perform(w, patch);
        assert PodPlan(pods, version)[0] == patch && PodPlan(pods, version)[1..] == PodPlan(rest, version);
        QuietPatch(w, p.key, version);
        PatchedElsewhere(w, done.0, p.key, version);
        LoopElsewhere(done.0, rest, version);
        ThesePodsTransitive(w, done.0, Exec(done.0, PodPlan(rest, version)).0, pods);
      } else {
        assert PodPlan(pods, version) == PodPlan(rest, version);
        LoopElsewhere(w, rest, version);
        Unchanged(w, []);
        ThesePodsTransitive(w, w, Exec(w, PodPlan(rest, version)).0, pods);
      }
    }
  }

  lemma Unchanged(w: World, pods: seq<ListedPod>)
    requires Quiet(w)
    ensures OnlyThesePods(w, w, pods)
  {
  }

  lemma PatchedElsewhere(w: World, x: World, k: Key, version: nat)
    requires OnlyAt(w, x, k) && UpToDate(Stored(x, k), version) && OnlyAnnotated(Stored(w, k), Stored(x, k))
    ensures forall j: Key :: OnlyAnnotated(Stored(w, j), Stored(x, j)) && (j != k ==> Stored(x, j) == Stored(w, j))
    ensures forall j: Key :: Stored(w, j).Some? ==> Stored(x, j).Some?
  {
    forall j: Key
      ensures OnlyAnnotated(Stored(w, j), Stored(x, j)) && (j != k ==> Stored(x, j) == Stored(w, j))
    {
      if j != k {
        assert Stored(x, j) == Stored(w, j);
      }
    }
  }

  /** The first pod is patched or not on the way to `x`, the rest on the way to `y`. */
  lemma ThesePodsTransitive(w: World, x: World, y: World, pods: seq<ListedPod>)
    requires pods != [] && x.resource == w.resource && x.roster == w.roster
    requires forall j: Key :: OnlyAnnotated(Stored(w, j), Stored(x, j))
                           && (j != pods[0].key ==> Stored(x, j) == Stored(w, j))
    requires OnlyThesePods(x, y, pods[1..])
    ensures OnlyThesePods(w, y, pods)
  {
    hide Stored;
    forall k: Key
      ensures OnlyAnnotated(Stored(w, k), Stored(y, k)) && (!AmongPods(pods, k) ==> Stored(y, k) == Stored(w, k))
    {
      assert OnlyAnnotated(Stored(w, k), Stored(x, k)) && OnlyAnnotated(Stored(x, k), Stored(y, k));
      if !AmongPods(pods, k) {
        assert pods[0] in pods;
        assert forall p | p in pods[1..] :: p in pods;
      }
    }
  }

  lemma PodStepElsewhere(w: World, lim: Limitador)
    requires Quiet(w)
    ensures OnlyThesePods(w, AnnotatePods(w, lim).world, Listed(w, lim))
  {
    hide View, ListedFrom, SelectorLabels, Exec, PodPlan, OutOfDate, OnlyAnnotated, Stored, OnlyThesePods;
    QuietView(w, ConfigMapKey(lim));
    Unchanged(w, Listed(w, lim));
    var pods := Listed(w, lim);
    if pods != [] && !ReplicasMismatch(lim, |pods|) && View(w, ConfigMapKey(lim)).Some? {
      var version := View(w, ConfigMapKey(lim)).value.version;
      PodsAreStored(w, lim, version);
      LoopElsewhere(w, pods, version);
    }
  }

  /** Pods that keep their state are listed as before, and annotating a pod never makes it listed. */
  lemma {:induction false} ListedUnmoved(w: World, x: World, roster: seq<Key>, namespace: string, selector: FieldMap)
    requires Quiet(w) && Quiet(x) && LIMITS_VERSION_ANNOTATION !in selector
    requires forall p | p in ListedFrom(w, roster, namespace, selector) :: Stored(x, p.key) == Stored(w, p.key)
    requires forall k: Key | k.kind == Pod :: OnlyAnnotated(Stored(w, k), Stored(x, k))
    ensures ListedFrom(x, roster, namespace, selector) == ListedFrom(w, roster, namespace, selector)
    decreases |roster|
  {
    hide View, Stored, OnlyAnnotated, Selected, Quiet;
    if roster != [] {
      var k := roster[0];
      ListedUnmoved(w, x, roster[1..], namespace, selector);
      QuietView(w, k);
      QuietView(x, k);
      if k.kind == Pod && k.namespace == namespace {
        if View(w, k).Some? && Selected(View(w, k).value, selector) {
          var p := ListedPod(k, View(w, k).value);
          assert p in ListedFrom(w, roster, namespace, selector);
          assert Stored(x, p.key) == Stored(w, p.key);
        } else if View(x, k).Some? && Selected(View(x, k).value, selector) {
          NotMadeListed(Stored(w, k), Stored(x, k), k, selector);
        }
      }
    }
  }

  lemma NotMadeListed(before: Option<Object>, after: Option<Object>, k: Key, selector: FieldMap)
    requires OnlyAnnotated(before, after) && k.kind == Pod && LIMITS_VERSION_ANNOTATION !in selector
    requires Visible(after, k).Some? && Selected(Visible(after, k).value, selector)
    ensures Visible(before, k).Some? && Selected(Visible(before, k).value, selector)
  {
    assert APP_LABEL != LIMITS_VERSION_ANNOTATION;
  }

  // ---------- a whole spec pass ----------

  /** What belongs to `lim`: its children, and the pods listed for it. */
  ghost predicate Belongs(w: World, lim: Limitador, k: Key) {
    k in Children(lim) || AmongPods(Listed(w, lim), k)
  }

  /** The spec pass of `b` as its two parts: the plan, and the pods if the plan had no error. */
  lemma SpecParts(w: World, b: Limitador)
    requires Quiet(w)
    ensures var x := Exec(w, SpecPlan(b)); var y := SpecEffect(w, b);
      && Quiet(x.0) && Quiet(y.world) && x.0.roster == w.roster && y.world.roster == w.roster
      && y.error == x.1
      && (forall k: Key :: Stored(y.world, k) ==
            Stored(if x.1.Some? then x.0 else AnnotatePods(x.0, b).world, k))
      && (forall k: Key | k !in Children(b) :: Stored(x.0, k) == Stored(w, k))
      && (forall k: Key | k.kind != Pod :: Stored(y.world, k) == Stored(x.0, k))
  {
    hide SpecPlan, Exec, AnnotatePods, Stored, PodsSettled, Ordinary, Distinct, ActionKey, Children;
    SpecPlanOrdinary(b);
    ExecFrame(w, SpecPlan(b));
    PlanKeys(b);
    var x := Exec(w, SpecPlan(b));
    PodStepSettles(x.0, b);
    if x.1.None? {
      NoteSettled(AnnotatePods(x.0, b).world, SpecCompleted(b.generation), b);
    }
    forall k: Key | k !in Children(b)
      ensures Stored(x.0, k) == Stored(w, k)
    {
      assert forall i | 0 <= i < |SpecPlan(b)| :: SpecPlan(b)[i] in SpecPlan(b) && !KeyOf(SpecPlan(b)[i], k);
    }
  }

  /** After the plan of `b` the pods are as they were, for every resource. */
  lemma PlanKeepsPods(w: World, b: Limitador, lim: Limitador)
    requires Quiet(w)
    ensures Listed(Exec(w, SpecPlan(b)).0, lim) == Listed(w, lim)
  {
    hide SpecPlan, Exec, AnnotatePods, Stored, Children, SelectorLabels, ListedFrom, SpecEffect, OnlyAnnotated;
    SpecParts(w, b);
    var x := Exec(w, SpecPlan(b)).0;
    forall k: Key | k.kind == Pod
      ensures OnlyAnnotated(Stored(w, k), Stored(x, k)) && Stored(x, k) == Stored(w, k)
    {
      NoPodAmongChildren(b, k);
      SameOnlyAnnotated(Stored(w, k));
    }
    ListedAreSelected(w, w.roster, lim.namespace, SelectorLabels(LABELS, lim));
    SelectorHasNoVersion(lim);
    ListedUnmoved(w, x, w.roster, lim.namespace, SelectorLabels(LABELS, lim));
  }

  lemma NoPodAmongChildren(b: Limitador, k: Key)
    requires k.kind == Pod
    ensures k !in Children(b)
  {
  }

  lemma SameOnlyAnnotated(o: Option<Object>)
    ensures OnlyAnnotated(o, o)
  {
  }

  lemma SelectorHasNoVersion(lim: Limitador)
    ensures LIMITS_VERSION_ANNOTATION !in SelectorLabels(LABELS, lim)
  {
  }

  /** A whole spec pass of `b`, failing or not, leaves every object that belongs to `a`, child or pod, exactly as it
      was, version included. */
  lemma LeavesOthersAlone(w: World, a: Limitador, b: Limitador)
    requires Quiet(w) && Different(a, b)
    ensures var x := SpecEffect(w, b).world;
      && Listed(x, a) == Listed(w, a)
      && forall k: Key | Belongs(w, a, k) :: Stored(x, k) == Stored(w, k)
  {
    hide SpecPlan, Exec, AnnotatePods, Stored, Children, SelectorLabels, ListedFrom, SpecEffect, OnlyAnnotated;
    var x := SpecEffect(w, b).world;
    var plan := Exec(w, SpecPlan(b));
    SpecParts(w, b);
    ChildrenDisjoint(a, b);
    PlanKeepsPods(w, b, a);
    PlanKeepsPods(w, b, b);
    PodStepElsewhere(plan.0, b);
    PodsDisjoint(w, a, b);
    SelectorHasNoVersion(a);
    ListedAreSelected(w, w.roster, a.namespace, SelectorLabels(LABELS, a));
    forall k: Key
      ensures Belongs(w, a, k) ==> Stored(x, k) == Stored(w, k)
      ensures k.kind == Pod ==> OnlyAnnotated(Stored(plan.0, k), Stored(x, k))
    {
      SameOnlyAnnotated(Stored(plan.0, k));
      if AmongPods(Listed(w, a), k) {
        NoPodAmongChildren(b, k);
        assert !AmongPods(Listed(w, b), k);
      } else if k in Children(a) {
        ChildrenAreNoPods(a, k);
      }
    }
    ListedUnmoved(plan.0, x, w.roster, a.namespace, SelectorLabels(LABELS, a));
  }

  lemma ChildrenAreNoPods(a: Limitador, k: Key)
    requires k in Children(a)
    ensures k.kind != Pod
  {
  }

  /** So what `a` has settled stays settled. */
  lemma StaysSettled(w: World, a: Limitador, b: Limitador)
    requires Quiet(w) && Different(a, b) && PodsSettled(w, a)
    ensures PodsSettled(SpecEffect(w, b).world, a)
  {
    hide SpecPlan, SpecEffect, Stored, ListedFrom, SelectorLabels, PodPlan;
    LeavesOthersAlone(w, a, b);
    SpecSettles(w, b);
    assert Belongs(w, a, ConfigMapKey(a));
    QuietView(w, ConfigMapKey(a));
    QuietView(SpecEffect(w, b).world, ConfigMapKey(a));
  }

  // ---------- the order of two passes ----------

  /** Everything but the pods is the same, version numbers apart. */
  ghost predicate SameButPods(w: World, x: World) {
    forall k: Key | k.kind != Pod :: EssenceAt(w, k) == EssenceAt(x, k)
  }

  lemma PlanOnSame(w: World, x: World, b: Limitador)
    requires Quiet(w) && Quiet(x) && SameButPods(w, x)
    ensures Exec(w, SpecPlan(b)).1 == Exec(x, SpecPlan(b)).1
    ensures SameButPods(Exec(w, SpecPlan(b)).0, Exec(x, SpecPlan(b)).0)
  {
    hide SpecPlan, Exec, Stored, EssenceOf, Ordinary, Distinct;
    var plan := SpecPlan(b);
    SpecPlanOrdinary(b);
    PlanLooksAtNoPods(b);
    ExecEssence(w, x, plan);
    ExecFrame(w, plan);
    ExecFrame(x, plan);
    forall k: Key | k.kind != Pod
      ensures EssenceAt(Exec(w, plan).0, k) == EssenceAt(Exec(x, plan).0, k)
    {
      if i :| 0 <= i < |plan| && KeyOf(plan[i], k) {
        assert plan[i] in plan && ActionKey(plan[i]) == Some(k);
      }
    }
  }

  lemma PlanLooksAtNoPods(b: Limitador)
    ensures forall a | a in SpecPlan(b) && ActionKey(a).Some? :: ActionKey(a).value.kind != Pod
  {
    hide SpecPlan;
    NoPodKeys(b);
    forall a | a in SpecPlan(b) && ActionKey(a).Some?
      ensures ActionKey(a).value.kind != Pod
    {
      var i :| 0 <= i < |SpecPlan(b)| && SpecPlan(b)[i] == a;
    }
  }

  /** What two passes leave apart from the pods is what the two plans leave. */
  lemma TwoPasses(w: World, a: Limitador, b: Limitador)
    requires Quiet(w) && Different(a, b)
    ensures var x := SpecEffect(w, a).world; var planned := Exec(Exec(w, SpecPlan(a)).0, SpecPlan(b));
      && SpecEffect(x, b).error == planned.1
      && SameButPods(SpecEffect(x, b).world, planned.0)
  {
    hide SpecPlan, Exec, Stored, EssenceOf, SpecEffect, AnnotatePods;
    var x := SpecEffect(w, a).world;
    SpecParts(w, a);
    SpecParts(x, b);
    assert SameButPods(x, Exec(w, SpecPlan(a)).0);
    PlanOnSame(x, Exec(w, SpecPlan(a)).0, b);
  }

  /** Two passes in either order: each ends as it would alone, the objects are the same up to version numbers, and the
      pods of each resource that succeeded are settled, that is, up to date with its own ConfigMap or behind a gate. */
  lemma PassesCommute(w: World, a: Limitador, b: Limitador)
    requires Quiet(w) && Different(a, b)
    ensures var wa, wb := SpecEffect(w, a), SpecEffect(w, b);
      var ab, ba := SpecEffect(wa.world, b), SpecEffect(wb.world, a);
      && ba.error == wa.error && ab.error == wb.error
      && SameButPods(ab.world, ba.world)
      && (wa.error.None? ==> PodsSettled(ab.world, a) && PodsSettled(ba.world, a))
      && (wb.error.None? ==> PodsSettled(ab.world, b) && PodsSettled(ba.world, b))
  {
    hide SpecPlan, Exec, Stored, EssenceOf, SpecEffect, AnnotatePods, PodsSettled, Agrees;
    var wa, wb := SpecEffect(w, a), SpecEffect(w, b);
    TwoPasses(w, a, b);
    TwoPasses(w, b, a);
    PlansCommute(w, a, b);
    SpecSettles(w, a);
    SpecSettles(w, b);
    SpecSettles(wa.world, b);
    SpecSettles(wb.world, a);
    if wa.error.None? {
      StaysSettled(wa.world, a, b);
    }
    if wb.error.None? {
      StaysSettled(wb.world, b, a);
    }
  }

  /** And each reports the condition it would report alone. */
  lemma ConditionsCommute(w: World, a: Limitador, b: Limitador, specErr: Option<Error>)
    requires Quiet(w) && Different(a, b)
    ensures var wa, wb := SpecEffect(w, a).world, SpecEffect(w, b).world;
      && ReadyCondition(SpecEffect(wa, b).world, a, specErr).1 == ReadyCondition(wa, a, specErr).1
      && ReadyCondition(SpecEffect(wb, a).world, a, specErr).1 == ReadyCondition(wa, a, specErr).1
  {
    hide SpecPlan, Exec, Stored, EssenceOf, SpecEffect, AnnotatePods, ReadyFrom, Agrees;
    var wa, wb := SpecEffect(w, a).world, SpecEffect(w, b).world;
    SpecSettles(w, a);
    SpecSettles(w, b);
    SpecSettles(wa, b);
    SpecSettles(wb, a);
    PassesCommute(w, a, b);
    LeavesOthersAlone(wa, a, b);
    var k := DeploymentKey(a);
    assert Belongs(wa, a, k) && k.kind != Pod;
    QuietReady(wa, a, specErr);
    QuietReady(SpecEffect(wa, b).world, a, specErr);
    QuietReady(SpecEffect(wb, a).world, a, specErr);
    ReadyFromEssence(Stored(wa, k), Stored(SpecEffect(wb, a).world, k), k, specErr);
  }

  lemma ReadyFromEssence(o: Option<Object>, other: Option<Object>, k: Key, specErr: Option<Error>)
    requires EssenceOf(o) == EssenceOf(other)
    ensures ReadyFrom(o, k, specErr) == ReadyFrom(other, k, specErr)
  {
  }
}
