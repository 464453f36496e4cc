/** The pass over the pods, seen in the store: calls may fail, reads may lag, and everybody may act, as long as nobody
    else touches a pod in the turns that go by during the pass. */
module PodLoop {
  import opened Wrappers
  import opened Fields
  import opened Objects
  import opened LimitadorTypes
  import opened K8sObjects
  import opened Cluster
  import opened Reconcilers
  import opened Controller
  import opened Histories
  import opened Runs
  import opened Annotations
  import opened Convergence
  import opened Failures
  import opened Idempotence

  predicate SparesPods(s: EnvStep) {
    match s
    case WriteObject(k, _) => k.kind != Pod
    case ForeignApply(k, _, _) => k.kind != Pod
    case ForeignUpdate(k, _, _, _) => k.kind != Pod
    case Rollout(k, _) => k.kind != Pod
    case _ => true
  }

  predicate PodSparing(turns: seq<Turn>) {
    forall t | t in turns :: forall s | s in t.steps :: SparesPods(s)
  }

  lemma SplitSparing(w: World, x: World, y: World)
    requires Follows(w, x) && Follows(x, y)
    ensures Follows(w, y)
    ensures PodSparing(Elapsed(w, y)) <==> PodSparing(Elapsed(w, x)) && PodSparing(Elapsed(x, y))
  {
    hide Follows, Elapsed, SparesPods;
    FollowsTransitive(w, x, y);
    var first, second := Elapsed(w, x), Elapsed(x, y);
    assert forall t :: t in first + second <==> t in first || t in second;
  }

  ghost predicate PodsAsBefore(w: World, x: World) {
    && x.lagging == w.lagging
    && forall k: Key | k.kind == Pod :: Stored(x, k) == Stored(w, k)
  }

  lemma EnvStepSpares(w: World, s: EnvStep)
    requires SparesPods(s)
    ensures PodsAsBefore(w, EnvStepWorld(w, s))
  {
    hide NextObject, TryApply, Update, EnvResource;
    var x := EnvStepWorld(w, s);
    forall k: Key | k.kind == Pod
      ensures Stored(x, k) == Stored(w, k)
    {
      assert Versions(x, k) == Versions(w, k);
    }
  }

  lemma {:induction false} EnvStepsSpare(w: World, steps: seq<EnvStep>)
    requires forall s | s in steps :: SparesPods(s)
    ensures PodsAsBefore(w, EnvSteps(w, steps))
    decreases |steps|
  {
    hide EnvStepWorld, Stored, SparesPods;
    if steps != [] {
      EnvStepSpares(w, steps[0]);
      EnvStepsSpare(EnvStepWorld(w, steps[0]), steps[1..]);
    }
  }

  lemma BeforeSpares(w: World)
    ensures Follows(w, Before(w)) && Before(w).lagging == w.lagging
    ensures PodSparing(Elapsed(w, Before(w))) ==> PodsAsBefore(w, Before(w))
  {
    hide EnvSteps, SparesPods, Stored, Passes;
    BeforeFollows(w);
    BeforePasses(w);
    PassesSameLag(w, Before(w));
    if w.agenda != [] && PodSparing(Elapsed(w, Before(w))) {
      var x := w.(agenda := w.agenda[1..]);
      assert w.agenda[0] in Elapsed(w, Before(w));
      SameHistorySameStored(w, x);
      EnvStepsSpare(x, w.agenda[0].steps);
    }
  }

  lemma SameHistorySameStored(w: World, x: World)
    requires x.hist == w.hist
    ensures forall k: Key :: Stored(x, k) == Stored(w, k)
  {
  }

  // ---------- one patch ----------

  /** Served or not, a patch changes no other pod and undoes no annotation of this version; reported as a success, it
      has annotated its pod. */
  lemma PatchOnStore(w: World, k: Key, version: nat)
    requires k.kind == Pod
    ensures var done := Perform(w, ActionFor(PodPatch(k, version)));
      && Follows(w, done.0) && done.0.lagging == w.lagging
      && (done.1.None? ==> UpToDate(Stored(done.0, k), version))
      && (PodSparing(Elapsed(w, done.0)) ==>
            && (forall j: Key | j.kind == Pod && j != k :: Stored(done.0, j) == Stored(w, j))
            && (UpToDate(Stored(w, k), version) ==> UpToDate(Stored(done.0, k), version)))
  {
    hide Before, Put, Apply, ActionFor, PodPatch, PodSparing, Stored;
    PodPatchAction(k, version);
    BeforeSpares(w);
    var x := Before(w);
    var fields: FieldMap := map[LIMITS_VERSION_ANNOTATION := Version(version)];
    var c := Apply(StoredContent(x, k), OPERATOR, fields);
    var y := Note(Put(x, k, c), AppliedObject(k, fields));
    ApplyOnlyAnnotates(StoredContent(x, k), version);
    StoredAfterPut(x, k, c);
    SameHistorySameStored(Put(x, k, c), y);
    assert UpToDate(Stored(y, k), version);
  }

  // ---------- the loop ----------

  /** The loop went through the stale pods up to, not including, position `k`: those are annotated in the store; the
      pod at `k`, when there is one, is the one whose patch failed; and every other pod is as it was. */
  ghost predicate StoppedAt(w: World, x: World, error: Option<Error>, stale: seq<Key>, version: nat, k: nat) {
    && k <= |stale| && (error.None? <==> k == |stale|)
    && (forall i | 0 <= i < k :: UpToDate(Stored(x, stale[i]), version))
    && forall j: Key | j.kind == Pod && j !in stale[..k] && (k < |stale| ==> j != stale[k]) ::
         Stored(x, j) == Stored(w, j)
  }

  /** Annotations of this version stay, and the other pods are not touched. */
  ghost predicate KeepsAnnotated(w: World, x: World, version: nat) {
    forall j: Key :: j.kind == Pod && UpToDate(Stored(w, j), version) ==> UpToDate(Stored(x, j), version)
  }

  lemma {:induction false} LoopFollows(w: World, pods: seq<ListedPod>, version: nat)
    requires forall p | p in pods :: p.key.kind == Pod
    ensures var x := Exec(w, PodPlan(pods, version)).0; Follows(w, x) && x.lagging == w.lagging
    decreases |pods|
  {
    hide Perform, ActionFor, PodPatch, OutOfDate, Follows, Elapsed;
    SameFollows(w, w);
    if pods != [] {
      var p, rest := pods[0], PodPlan(pods[1..], version);
      assert p in pods;
      if OutOfDate(p, version) {
        var patch := ActionFor(PodPatch(p.key, version));
        var done := Perform(w, patch);
        assert PodPlan(pods, version)[0] == patch && PodPlan(pods, version)[1..] == rest;
        PatchOnStore(w, p.key, version);
        LoopFollows(done.0, pods[1..], version);
        FollowsTransitive(w, done.0, Exec(done.0, rest).0);
      } else {
        assert PodPlan(pods, version) == rest;
        LoopFollows(w, pods[1..], version);
      }
    }
  }

  lemma {:induction false} LoopOnStore(w: World, pods: seq<ListedPod>, version: nat)
    requires forall p | p in pods :: p.key.kind == Pod
    requires PodSparing(Elapsed(w, Exec(w, PodPlan(pods, version)).0))
    ensures var done := Exec(w, PodPlan(pods, version));
      && KeepsAnnotated(w, done.0, version)
      && exists k: nat :: StoppedAt(w, done.0, done.1, Stale(pods, version), version, k)
    decreases |pods|
  {
    hide Perform, ActionFor, PodPatch, OutOfDate, Annotates, UpToDate, Stored, PodSparing, Follows, Elapsed;
    var stale := Stale(pods, version);
    OutOfDateIff(version);
    var all := Exec(w, PodPlan(pods, version));
    if pods == [] {
      assert StoppedAt(w, all.0, all.1, stale, version, 0);
    } else {
      var p, rest := pods[0], PodPlan(pods[1..], version);
      assert p in pods;
      if OutOfDate(p, version) {
        var patch := ActionFor(PodPatch(p.key, version));
        var done := Perform(w, patch);
        PatchOnStore(w, p.key, version);
        assert PodPlan(pods, version)[0] == patch && PodPlan(pods, version)[1..] == rest;
        assert stale == [p.key] + Stale(pods[1..], version);
        if done.1.Some? {
          assert StoppedAt(w, all.0, all.1, stale, version, 0);
        } else {
          LoopFollows(done.0, pods[1..], version);
          SplitSparing(w, done.0, all.0);
          LoopOnStore(done.0, pods[1..], version);
          var k: nat :| StoppedAt(done.0, all.0, all.1, Stale(pods[1..], version), version, k);
          OneMore(w, done.0, all.0, all.1, p.key, Stale(pods[1..], version), version, k);
        }
      } else {
        assert PodPlan(pods, version) == rest && stale == Stale(pods[1..], version);
        LoopOnStore(w, pods[1..], version);
      }
    }
  }

  lemma OneMore(w: World, x: World, y: World, error: Option<Error>, first: Key, later: seq<Key>, version: nat, k: nat)
    requires forall j: Key | j.kind == Pod && j != first :: Stored(x, j) == Stored(w, j)
    requires first.kind == Pod && UpToDate(Stored(x, first), version) && KeepsAnnotated(x, y, version)
    requires StoppedAt(x, y, error, later, version, k)
    ensures StoppedAt(w, y, error, [first] + later, version, k + 1)
  {
    hide UpToDate, Stored;
    var stale := [first] + later;
    assert stale[..k + 1] == [first] + later[..k];
    forall i | 0 <= i < k + 1
      ensures UpToDate(Stored(y, stale[i]), version)
    {
      if i > 0 {
        assert stale[i] == later[i - 1];
      }
    }
  }

  /** When the loop ends without error, every pod of the list is annotated in the store, provided the list was right
      about those it showed as annotated already. */
  lemma LoopCompletes(w: World, pods: seq<ListedPod>, version: nat)
    requires forall p | p in pods :: p.key.kind == Pod
    requires PodSparing(Elapsed(w, Exec(w, PodPlan(pods, version)).0))
    requires forall p | p in pods && !OutOfDate(p, version) :: UpToDate(Stored(w, p.key), version)
    requires Exec(w, PodPlan(pods, version)).1.None?
    ensures forall p | p in pods :: UpToDate(Stored(Exec(w, PodPlan(pods, version)).0, p.key), version)
  {
    hide OutOfDate, UpToDate, Stored, Exec, PodSparing, Elapsed;
    var done := Exec(w, PodPlan(pods, version));
    var stale := Stale(pods, version);
    LoopOnStore(w, pods, version);
    var k: nat :| StoppedAt(w, done.0, done.1, stale, version, k);
    assert stale[..k] == stale;
    StaleMembers(pods, version);
    forall p | p in pods
      ensures UpToDate(Stored(done.0, p.key), version)
    {
      if OutOfDate(p, version) {
        var i :| 0 <= i < |stale| && stale[i] == p.key;
      }
    }
  }

  lemma {:induction false} StaleMembers(pods: seq<ListedPod>, version: nat)
    ensures forall p | p in pods && OutOfDate(p, version) :: p.key in Stale(pods, version)
    ensures forall k | k in Stale(pods, version) :: exists p :: p in pods && OutOfDate(p, version) && p.key == k
  {
    hide OutOfDate, Annotates;
    OutOfDateIff(version);
    if pods != [] {
      StaleMembers(pods[1..], version);
    }
  }

  // ---------- the whole step ----------

  /** The pod step, in the store. Either no pod has changed: a gate held, or one of the two reads failed. Or the loop
      ran on what the reads returned; then it stopped at some position, and with fresh reads, when it did not fail,
      every listed pod carries the version of the ConfigMap that was read. */
  ghost predicate StepOnStore(w: World, lim: Limitador) {
    var x := AnnotatePods(w, lim);
    var listed := ListPods(w, lim.namespace, SelectorLabels(LABELS, lim));
    var got := Get(listed.0, ConfigMapKey(lim));
    if AtGate(w, lim) then x.error.None? && PodsAsBefore(w, x.world)
    else if listed.1.Err? || got.1.Err? then x.error.Some? && PodsAsBefore(w, x.world)
    else
      var pods, version := listed.1.value, got.1.value.version;
      && (exists k: nat :: StoppedAt(w, x.world, x.error, Stale(pods, version), version, k))
      && (!w.lagging && x.error.None? ==> forall p | p in pods :: UpToDate(Stored(x.world, p.key), version))
  }

  lemma PodStepOnStore(w: World, lim: Limitador)
    requires PodSparing(Elapsed(w, AnnotatePods(w, lim).world))
    ensures StepOnStore(w, lim)
  {
    hide Before, Exec, PodPlan, OutOfDate, UpToDate, Stored, SelectorLabels, View, ListedFrom, PodSparing;
    hide Follows, Elapsed;
    var x := Before(w);
    var y := Before(x);
    BeforeSpares(w);
    BeforeSpares(x);
    FollowsTransitive(w, x, y);
    SplitSparing(w, x, y);
    var listed := ListPods(w, lim.namespace, SelectorLabels(LABELS, lim));
    var got := Get(x, ConfigMapKey(lim));
    if !AtGate(w, lim) && listed.1.Ok? && got.1.Ok? {
      var pods, version := listed.1.value, got.1.value.version;
      ListedAreSelected(x, x.roster, lim.namespace, SelectorLabels(LABELS, lim));
      LoopFollows(y, pods, version);
      SplitSparing(w, y, Exec(y, PodPlan(pods, version)).0);
      LoopOnStore(y, pods, version);
      var done := Exec(y, PodPlan(pods, version));
      var k: nat :| StoppedAt(y, done.0, done.1, Stale(pods, version), version, k);
      assert StoppedAt(w, done.0, done.1, Stale(pods, version), version, k);
      if !w.lagging && done.1.None? {
        forall p | p in pods && !OutOfDate(p, version)
          ensures UpToDate(Stored(y, p.key), version)
        {
          FreshPod(x, p, version);
          assert Stored(y, p.key) == Stored(x, p.key);
        }
        LoopCompletes(y, pods, version);
      }
    }
  }

  lemma FreshPod(x: World, p: ListedPod, version: nat)
    requires !x.lagging && View(x, p.key) == Some(p.state) && p.key.kind == Pod && !OutOfDate(p, version)
    ensures UpToDate(Stored(x, p.key), version)
  {
    assert Versions(x, p.key)[..|Versions(x, p.key)|] == Versions(x, p.key);
  }
}
