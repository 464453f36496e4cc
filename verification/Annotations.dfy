/** Pod annotations: what one pass over the pods does, and what the annotations written along a whole run look like
    when the cache lags. */
module Annotations {
  import opened Wrappers
  import opened Fields
  import opened Objects
  import opened LimitadorTypes
  import opened K8sObjects
  import opened Cluster
  import opened Reconcilers
  import opened Controller
  import opened Histories
  import opened Runs

  // ---------- one pass ----------

  predicate Annotates(o: Object, version: nat) {
    var fields := o.content.fields;
    LIMITS_VERSION_ANNOTATION in fields && fields[LIMITS_VERSION_ANNOTATION] == Version(version)
  }

  /** The pods that are not annotated with `version`, in list order. */
  function Stale(pods: seq<ListedPod>, version: nat): seq<Key> {
    if pods == [] then []
    else (if Annotates(pods[0].state, version) then [] else [pods[0].key]) + Stale(pods[1..], version)
  }

  lemma OutOfDateIff(version: nat)
    ensures forall p: ListedPod :: OutOfDate(p, version) <==> !Annotates(p.state, version)
  {
  }

  function Patches(keys: seq<Key>, version: nat): seq<Event> {
    if keys == [] then [] else [Annotated(keys[0], version)] + Patches(keys[1..], version)
  }

  lemma PatchJournal(w: World, k: Key, version: nat)
    requires k.kind == Pod
    ensures var done := Perform(w, ActionFor(PodPatch(k, version)));
      && (done.0.journal == w.journal || done.0.journal == w.journal + [Annotated(k, version)])
      && (done.1.None? ==> done.0.journal == w.journal + [Annotated(k, version)])
  {
    hide Before, Put, Apply, ActionFor, PodPatch;
    PodPatchAction(k, version);
    BeforePasses(w);
    var content := Apply(StoredContent(Before(w), k), OPERATOR, map[LIMITS_VERSION_ANNOTATION := Version(version)]);
    PutPasses(Before(w), k, content);
  }

  /** Exactly the first `k` of the stale pods were patched on the way from `w` to `done`. */
  ghost predicate PatchedFirst(w: World, done: (World, Option<Error>), stale: seq<Key>, version: nat, k: nat) {
    && k <= |stale|
    && done.0.journal == w.journal + Patches(stale[..k], version)
    && (done.1.None? ==> k == |stale|)
  }

  /** Whatever happens around it, the loop patches the out-of-date pods and no others, once each, in list order; it
      patches all of them unless a patch fails, and then it stops there. */
  lemma {:induction false} LoopPatchesExactlyStale(w: World, pods: seq<ListedPod>, version: nat)
    requires forall p | p in pods :: p.key.kind == Pod
    ensures exists k: nat :: PatchedFirst(w, Exec(w, PodPlan(pods, version)), Stale(pods, version), version, k)
    decreases |pods|
  {
    hide Perform, ActionFor, PodPatch, OutOfDate;
    var stale := Stale(pods, version);
    var all := Exec(w, PodPlan(pods, version));
    OutOfDateIff(version);
    if pods == [] {
      assert PatchedFirst(w, all, stale, version, 0);
    } else {
      var rest := PodPlan(pods[1..], version);
      var later := Stale(pods[1..], version);
      if OutOfDate(pods[0], version) {
        var patch := ActionFor(PodPatch(pods[0].key, version));
        var done := Perform(w, patch);
        PatchJournal(w, pods[0].key, version);
        assert PodPlan(pods, version)[0] == patch && PodPlan(pods, version)[1..] == rest;
        assert stale == [pods[0].key] + later;
        assert Patches(stale[..1], version) == [Annotated(pods[0].key, version)];
        if done.1.None? {
          LoopPatchesExactlyStale(done.0, pods[1..], version);
          var k: nat :| PatchedFirst(done.0, Exec(done.0, rest), later, version, k);
          assert stale[..k + 1] == [pods[0].key] + later[..k];
          assert stale[..k + 1][1..] == later[..k];
          assert PatchedFirst(w, all, stale, version, k + 1);
        } else if done.0.journal == w.journal {
          assert PatchedFirst(w, all, stale, version, 0);
        } else {
          assert PatchedFirst(w, all, stale, version, 1);
        }
      } else {
        assert PodPlan(pods, version) == rest && stale == later;
        LoopPatchesExactlyStale(w, pods[1..], version);
      }
    }
  }

  // ---------- whole runs ----------

  /** The version an event writes into a pod annotation. */
  function AnnotatedVersion(e: Event): Option<nat> {
    if e.AppliedObject? && e.key.kind == Pod && LIMITS_VERSION_ANNOTATION in e.fields
       && e.fields[LIMITS_VERSION_ANNOTATION].Version?
    then Some(e.fields[LIMITS_VERSION_ANNOTATION].version) else None
  }

  /** The cache has been shown the version `v` of the object `cm`. */
  ghost predicate Shown(w: World, cm: Key, v: nat) {
    exists p | 0 <= p < Position(w, cm) :: HasVersion(Versions(w, cm)[p], v)
  }

  predicate HasVersion(o: Option<Object>, v: nat) {
    o.Some? && o.value.version == v
  }

  /** Every annotation written so far is a version the ConfigMap had and the cache was shown, and they never go back. */
  ghost predicate AnnotationsSound(w: World, cm: Key) {
    && (forall i | 0 <= i < |w.journal| && AnnotatedVersion(w.journal[i]).Some? ::
          Shown(w, cm, AnnotatedVersion(w.journal[i]).value))
    && (forall i, j | 0 <= i < j < |w.journal|
                   && AnnotatedVersion(w.journal[i]).Some? && AnnotatedVersion(w.journal[j]).Some? ::
          AnnotatedVersion(w.journal[i]).value <= AnnotatedVersion(w.journal[j]).value)
  }

  lemma ShownStays(w: World, x: World, cm: Key, v: nat)
    requires Grows(w, x) && Shown(w, cm, v)
    ensures Shown(x, cm, v)
  {
    assert Versions(w, cm) <= Versions(x, cm) && Position(w, cm) <= Position(x, cm);
    var p :| 0 <= p < Position(w, cm) && HasVersion(Versions(w, cm)[p], v);
    assert Versions(x, cm)[p] == Versions(w, cm)[p];
  }

  /** Steps that annotate nothing. */
  lemma AnnotationsStay(w: World, x: World, cm: Key)
    requires AnnotationsSound(w, cm) && Grows(w, x)
    requires forall i | |w.journal| <= i < |x.journal| :: AnnotatedVersion(x.journal[i]).None?
    ensures AnnotationsSound(x, cm)
  {
    hide Shown, AnnotatedVersion;
    GrowsParts(w, x);
    forall i | 0 <= i < |x.journal| && AnnotatedVersion(x.journal[i]).Some?
      ensures Shown(x, cm, AnnotatedVersion(x.journal[i]).value)
    {
      assert x.journal[i] == w.journal[i];
      ShownStays(w, x, cm, AnnotatedVersion(w.journal[i]).value);
    }
    assert forall i | 0 <= i < |w.journal| :: x.journal[i] == w.journal[i];
  }

  /** Whatever was shown earlier is at most what is shown now. */
  lemma ShownAtMost(w: World, cm: Key, v: nat, current: nat)
    requires Sound(w) && Shown(w, cm, v)
    requires Position(w, cm) > 0 && HasVersion(Versions(w, cm)[Position(w, cm) - 1], current)
    ensures v <= current
  {
    assert Ordered(Versions(w, cm), w.clock);
    var p :| 0 <= p < Position(w, cm) && HasVersion(Versions(w, cm)[p], v);
    if p < Position(w, cm) - 1 {
      assert Versions(w, cm)[p].value.version < Versions(w, cm)[Position(w, cm) - 1].value.version;
    }
  }

  /** Steps that annotate with the version the cache shows now. */
  lemma AnnotationsAdvance(w: World, x: World, cm: Key, v: nat)
    requires Sound(w) && AnnotationsSound(w, cm) && Grows(w, x)
    requires Position(w, cm) > 0 && HasVersion(Versions(w, cm)[Position(w, cm) - 1], v)
    requires forall i | |w.journal| <= i < |x.journal| :: AnnotatedVersion(x.journal[i]) == Some(v)
    ensures AnnotationsSound(x, cm)
  {
    hide AnnotatedVersion, Sound;
    GrowsParts(w, x);
    assert Shown(w, cm, v);
    forall i | 0 <= i < |x.journal| && AnnotatedVersion(x.journal[i]).Some?
      ensures Shown(x, cm, AnnotatedVersion(x.journal[i]).value) && AnnotatedVersion(x.journal[i]).value <= v
    {
      if i < |w.journal| {
        assert x.journal[i] == w.journal[i];
        ShownStays(w, x, cm, AnnotatedVersion(w.journal[i]).value);
        ShownAtMost(w, cm, AnnotatedVersion(w.journal[i]).value, v);
      } else {
        ShownStays(w, x, cm, v);
      }
    }
    forall i, j | 0 <= i < j < |x.journal|
               && AnnotatedVersion(x.journal[i]).Some? && AnnotatedVersion(x.journal[j]).Some?
      ensures AnnotatedVersion(x.journal[i]).value <= AnnotatedVersion(x.journal[j]).value
    {
      if j < |w.journal| {
        assert x.journal[i] == w.journal[i] && x.journal[j] == w.journal[j];
      }
    }
  }

  /** The operator's steps other than pod patches, as far as annotations go. */
  lemma RecordsNoAnnotation(w: World, x: World, events: iset<Event>, cm: Key)
    requires Extends(w, x, events) && AnnotationsSound(w, cm)
    requires forall e | e in events :: AnnotatedVersion(e).None?
    ensures AnnotationsSound(x, cm)
  {
    hide AnnotatedVersion, Sound;
    AnnotationsStay(w, x, cm);
  }

  lemma PassesNoAnnotation(w: World, x: World, cm: Key)
    requires Passes(w, x) && AnnotationsSound(w, cm) && Sound(w)
    ensures AnnotationsSound(x, cm) && Sound(x)
  {
    hide Sound, AnnotationsSound;
    AnnotationsStay(w, x, cm);
  }

  lemma SeenConfigMap(w: World, cm: Key, o: Object)
    requires View(w, cm) == Some(o) && cm.kind == ConfigMap
    ensures Position(w, cm) > 0 && HasVersion(Versions(w, cm)[Position(w, cm) - 1], o.version)
  {
    var shown := Versions(w, cm)[..Position(w, cm)];
    assert shown[|shown| - 1] == Versions(w, cm)[Position(w, cm) - 1];
  }

  lemma PodEventVersions(lim: Limitador, v: nat)
    ensures forall e | e in PodEvents(lim, v) :: AnnotatedVersion(e) == Some(v)
  {
  }

  lemma SpecEventVersions(lim: Limitador)
    ensures forall e | e in SpecEvents(lim) :: AnnotatedVersion(e).None?
  {
  }

  lemma AnnotatePodsKeeps(w: World, lim: Limitador)
    requires Sound(w) && AnnotationsSound(w, ConfigMapKey(lim))
    ensures AnnotationsSound(AnnotatePods(w, lim).world, ConfigMapKey(lim))
  {
    hide Before, Exec, SelectorLabels, PodPlan, View, Sound, AnnotationsSound, Passes, Records;
    var cm := ConfigMapKey(lim);
    var x := Before(w);
    BeforePasses(w);
    PassesNoAnnotation(w, x, cm);
    var listed := ListPods(w, lim.namespace, SelectorLabels(LABELS, lim));
    if listed.1.Ok? && listed.1.value != [] && !ReplicasMismatch(lim, |listed.1.value|) {
      ListedAreSelected(x, x.roster, lim.namespace, SelectorLabels(LABELS, lim));
      var y := Before(x);
      BeforePasses(x);
      PassesNoAnnotation(x, y, cm);
      var got := Get(x, cm);
      if got.1.Ok? {
        var version := got.1.value.version;
        SeenConfigMap(y, cm, got.1.value);
        PodExecRecords(y, lim, listed.1.value, version);
        PodEventVersions(lim, version);
        var z := Exec(y, PodPlan(listed.1.value, version)).0;
        RecordsAdvance(y, z, PodEvents(lim, version), cm, version);
      }
    }
  }

  lemma RecordsAdvance(w: World, x: World, events: iset<Event>, cm: Key, v: nat)
    requires Records(w, x, events) && Sound(w) && AnnotationsSound(w, cm)
    requires forall e | e in events :: AnnotatedVersion(e) == Some(v)
    requires Position(w, cm) > 0 && HasVersion(Versions(w, cm)[Position(w, cm) - 1], v)
    ensures AnnotationsSound(x, cm)
  {
    hide Sound, AnnotationsSound, AnnotatedVersion;
    AnnotationsAdvance(w, x, cm, v);
  }

  ghost function QuietEvents(): iset<Event> {
    iset e: Event | e.CheckedDeployment? || e.SpecCompleted? || e.WroteStatus?
  }

  lemma SpecEffectKeeps(w: World, lim: Limitador)
    requires Sound(w) && AnnotationsSound(w, ConfigMapKey(lim))
    ensures AnnotationsSound(SpecEffect(w, lim).world, ConfigMapKey(lim))
  {
    hide Exec, SpecPlan, AnnotatePods, Note, Sound, AnnotationsSound, Records, Extends, SpecEvents, QuietEvents;
    var cm := ConfigMapKey(lim);
    var done := Exec(w, SpecPlan(lim));
    SpecExecRecords(w, lim);
    RecordsExtends(w, done.0, SpecEvents(lim));
    SpecEventVersions(lim);
    RecordsNoAnnotation(w, done.0, SpecEvents(lim), cm);
    ExtendsGrows(w, done.0, SpecEvents(lim));
    AnnotatePodsKeeps(done.0, lim);
    var pods := AnnotatePods(done.0, lim);
    QuietEventsNone();
    CompletedIsQuiet(lim);
    NoteRecords(pods.world, SpecCompleted(lim.generation), QuietEvents());
    var noted := Note(pods.world, SpecCompleted(lim.generation));
    RecordsExtends(pods.world, noted, QuietEvents());
    RecordsNoAnnotation(pods.world, noted, QuietEvents(), cm);
  }

  lemma CompletedIsQuiet(lim: Limitador)
    ensures SpecCompleted(lim.generation) in QuietEvents()
  {
  }

  lemma QuietEventsNone()
    ensures forall e | e in QuietEvents() :: AnnotatedVersion(e).None?
  {
  }

  lemma ReconcileKeepsAnnotations(w: World, cm: Key)
    requires Sound(w) && AnnotationsSound(w, cm)
    requires GetLimitador(w).1.Ok? ==> ConfigMapKey(GetLimitador(w).1.value) == cm
    ensures AnnotationsSound(ReconcileEffect(w).world, cm)
  {
    hide GetLimitador, SpecEffect, StatusEffect, Sound, AnnotationsSound;
    hide ReadAt, Records, Extends, Allowed, QuietEvents, ConfigMapKey;
    var got := GetLimitador(w);
    GetLimitadorPasses(w);
    PassesNoAnnotation(w, got.0, cm);
    if got.1.Ok? && !got.1.value.deleting {
      var lim := got.1.value;
      ReadResult(w, lim);
      var x := SpecEffect(got.0, lim);
      SpecEffectRecords(got.0, lim);
      SpecEffectKeeps(got.0, lim);
      StatusEffectExtends(got.0, x.world, lim, x.error);
      var y := StatusEffect(x.world, lim, x.error).0;
      ExtendsGrows(x.world, y, Allowed(lim));
      StatusEffectEvents(x.world, lim, x.error);
      QuietEventsNone();
      AnnotationsStay(x.world, y, cm);
    }
  }

  /** The identity of the resource read is the identity it always had. */
  lemma ReadIdentity(w: World, first: Resource)
    requires Sound(w) && w.resource != [] && w.resource[0] == Some(first)
    ensures GetLimitador(w).1.Ok? ==>
      GetLimitador(w).1.value.name == first.lim.name && GetLimitador(w).1.value.namespace == first.lim.namespace
  {
    hide Before;
    var x := Before(w);
    BeforePasses(w);
    if GetLimitador(w).1.Ok? {
      var p := ResourcePosition(x) - 1;
      assert x.resource[..ResourcePosition(x)][p] == x.resource[p];
      assert w.resource <= x.resource && x.resource[0] == Some(first);
      if 0 < p {
        assert NoLater(x.resource[0].value.lim, x.resource[p].value.lim);
      }
    }
  }

  /** Along any run, however the cache lags: every pod annotation the operator wrote is a version the ConfigMap really
      had, and over all pods together the versions never move backwards. */
  lemma {:induction false} AnnotationHistory(w: World, n: nat, first: Resource)
    requires Sound(w) && w.resource != [] && w.resource[0] == Some(first)
    requires AnnotationsSound(w, ConfigMapKey(first.lim))
    ensures AnnotationsSound(Run(w, n), ConfigMapKey(first.lim))
  {
    hide Sound, AnnotationsSound, ReconcileEffect, GetLimitador;
    if n == 0 {
      assert Run(w, n) == w;
    } else {
      var x := Run(w, n - 1);
      RunSound(w, n - 1);
      AnnotationHistory(w, n - 1, first);
      GrowsParts(w, x);
      ReadIdentity(x, first);
      ReconcileKeepsAnnotations(x, ConfigMapKey(first.lim));
    }
  }
}
