/** Idempotence: in a quiet environment with fresh reads, a second reconcile changes nothing at all. */
module Idempotence {
  import opened Wrappers
  import opened Fields
  import opened Objects
  import opened LimitadorTypes
  import opened StatusConditions
  import opened K8sObjects
  import opened Cluster
  import opened Reconcilers
  import opened Controller
  import opened Histories
  import opened Runs
  import opened Convergence

  /** Nothing interferes, no call fails, reads are fresh. */
  predicate Quiet(w: World) {
    w.agenda == [] && !w.lagging
  }

  /** Everything but the operator's journal and the time of day. */
  predicate SameStore(w: World, x: World) {
    && x.hist == w.hist && x.resource == w.resource && x.roster == w.roster && x.clock == w.clock
    && x.seen == w.seen && x.resourceSeen == w.resourceSeen && x.lagging == w.lagging && x.agenda == w.agenda
  }

  /** What a fresh read of `k` returns, as a function of what is stored. */
  function Visible(o: Option<Object>, k: Key): Option<Object> {
    if o.Some? && LabelFiltered(k.kind) && !HasAppLabel(o.value.content) then None else o
  }

  lemma QuietView(w: World, k: Key)
    requires Quiet(w)
    ensures View(w, k) == Visible(Stored(w, k), k) && Before(w) == w && FaultOf(w) == NoFault
  {
    assert Versions(w, k)[..|Versions(w, k)|] == Versions(w, k);
  }

  /** The object is as the action wants it, and the action finds it so. */
  predicate Settled(o: Option<Object>, a: Action) {
    && InPlace(o, a)
    && match a
       case Provide(k, _) => Visible(o, k).Some?
       case DemandURL(k) => o.Some? && SECRET_URL in o.value.content.fields
       case Fail(_) => false
       case _ => true
  }

  /** The actions this module is about: no pod is enforced, created objects are labelled, only secrets are demanded. */
  predicate Ordinary(a: Action) {
    match a
    case Enforce(k, fields) => k.kind != Pod && NoRoot(fields)
    case Provide(k, fields) => APP_LABEL in fields && fields[APP_LABEL] == APP_NAME
    case DemandURL(k) => k.kind == Secret
    case _ => true
  }

  ghost predicate OnlyAt(w: World, x: World, k: Key) {
    && Quiet(x) && x.resource == w.resource && x.roster == w.roster
    && forall j: Key | j != k :: Stored(x, j) == Stored(w, j)
  }

  lemma PutOnlyAt(w: World, k: Key, c: Content, e: Event)
    requires Quiet(w)
    ensures var x := Note(Put(w, k, c), e);
      OnlyAt(w, x, k) && Stored(x, k).Some? && Stored(x, k).value.content == c
  {
    hide Put;
    StoredAfterPut(w, k, c);
    var x := Note(Put(w, k, c), e);
    assert forall j: Key :: Stored(x, j) == Stored(Put(w, k, c), j);
  }

  lemma RemoveOnlyAt(w: World, k: Key, e: Event)
    requires Quiet(w) && Stored(w, k).Some?
    ensures var x := Note(Remove(w, k), e); OnlyAt(w, x, k) && Stored(x, k).None?
  {
    StoredAfterAppend(w, k, None);
    var x := Note(Remove(w, k), e);
    assert forall j: Key :: Stored(x, j) == Stored(Remove(w, k), j);
  }

  /** A quiet action: on success it is settled, on failure it changed nothing, and it concerns one object only. */
  lemma QuietPerform(w: World, a: Action)
    requires Quiet(w) && Ordinary(a)
    ensures var done := Perform(w, a);
      && Quiet(done.0)
      && done.0.resource == w.resource && done.0.roster == w.roster
      && (forall j: Key | !KeyOf(a, j) :: Stored(done.0, j) == Stored(w, j))
      && (done.1.Some? ==> SameStore(w, done.0))
      && (done.1.None? && ActionKey(a).Some? ==> Settled(Stored(done.0, ActionKey(a).value), a))
      && (a.Fail? ==> done.1.Some?)
  {
    hide Put, Remove, Apply, Matches;
    match a
    case Enforce(k, fields) =>
      QuietView(w, k);
      var c := Apply(StoredContent(w, k), OPERATOR, fields);
      PutOnlyAt(w, k, c, AppliedObject(k, fields));
      ApplyAchieves(StoredContent(w, k), OPERATOR, fields);
    case Discard(k) =>
      QuietView(w, k);
      if Stored(w, k).Some? {
        RemoveOnlyAt(w, k, DeletedObject(k));
      }
    case Provide(k, fields) =>
      QuietView(w, k);
      PutOnlyAt(w, k, Content(fields, map[CREATOR := fields.Keys]), CreatedObject(k, fields));
    case DemandURL(k) => QuietView(w, k);
    case Fail(_) =>
  }

  lemma SameIsSame(w: World, x: World)
    requires SameStore(w, x)
    ensures Quiet(w) ==> Quiet(x)
    ensures forall j: Key :: Stored(x, j) == Stored(w, j)
    ensures StoredResource(x) == StoredResource(w)
  {
  }

  /** A settled action is a no-op, versions included. */
  lemma SettledIsNoOp(x: World, a: Action)
    requires Quiet(x) && Ordinary(a) && ActionKey(a).Some? && Settled(Stored(x, ActionKey(a).value), a)
    ensures Perform(x, a).1.None? && SameStore(x, Perform(x, a).0)
  {
    hide Apply, Matches;
    QuietView(x, ActionKey(a).value);
    if a.Enforce? {
      ApplyNoOpIffMatches(StoredContent(x, a.key), OPERATOR, a.fields);
    }
  }

  /** The outcome of a quiet action depends only on the object it is about. */
  lemma OutcomeLocal(w: World, x: World, a: Action)
    requires Quiet(w) && Quiet(x) && Ordinary(a)
    requires ActionKey(a).Some? ==> Stored(x, ActionKey(a).value) == Stored(w, ActionKey(a).value)
    ensures Perform(x, a).1 == Perform(w, a).1
  {
    hide Put, Remove, Apply;
    if ActionKey(a).Some? {
      QuietView(w, ActionKey(a).value);
      QuietView(x, ActionKey(a).value);
    }
  }

  ghost predicate Distinct(plan: seq<Action>) {
    forall i, j | 0 <= i < j < |plan| && ActionKey(plan[i]).Some? :: ActionKey(plan[i]) != ActionKey(plan[j])
  }

  lemma DistinctRest(plan: seq<Action>)
    requires plan != [] && Distinct(plan)
    ensures Distinct(plan[1..])
  {
  }

  ghost predicate AllOrdinary(plan: seq<Action>) {
    forall a | a in plan :: Ordinary(a)
  }

  /** `x` has what `w` has wherever the plan looks. */
  ghost predicate Agrees(x: World, w: World, plan: seq<Action>) {
    forall i | 0 <= i < |plan| && ActionKey(plan[i]).Some? ::
      Stored(x, ActionKey(plan[i]).value) == Stored(w, ActionKey(plan[i]).value)
  }

  lemma {:induction false} ExecFrame(w: World, plan: seq<Action>)
    requires Quiet(w) && AllOrdinary(plan)
    ensures var x := Exec(w, plan).0;
      && Quiet(x) && x.resource == w.resource && x.roster == w.roster
      && forall j: Key | (forall i | 0 <= i < |plan| :: !KeyOf(plan[i], j)) :: Stored(x, j) == Stored(w, j)
    decreases |plan|
  {
    hide Perform, Stored, Ordinary;
    if plan != [] {
      assert plan[0] in plan;
      QuietPerform(w, plan[0]);
      var done := Perform(w, plan[0]);
      if done.1.None? {
        ExecFrame(done.0, plan[1..]);
        forall j: Key | forall i | 0 <= i < |plan| :: !KeyOf(plan[i], j)
          ensures Stored(Exec(w, plan).0, j) == Stored(w, j)
        {
          assert !KeyOf(plan[0], j);
          assert forall i | 0 <= i < |plan[1..]| :: plan[1..][i] == plan[i + 1];
        }
      }
    }
  }

  /** Running a plan again, on any world that has what the first run left, changes nothing and ends the same way. */
  lemma {:induction false} RepeatIsNoOp(w: World, plan: seq<Action>, x: World)
    requires Quiet(w) && Quiet(x) && AllOrdinary(plan) && Distinct(plan)
    requires Agrees(x, Exec(w, plan).0, plan)
    ensures Exec(x, plan).1 == Exec(w, plan).1 && SameStore(x, Exec(x, plan).0)
    decreases |plan|
  {
    hide Perform, Stored, Ordinary, Settled;
    if plan != [] {
      var a, rest := plan[0], plan[1..];
      assert a in plan;
      var done := Perform(w, a);
      var again := Perform(x, a);
      QuietPerform(w, a);
      QuietPerform(x, a);
      if done.1.Some? {
        SameIsSame(w, done.0);
        OutcomeLocal(w, x, a);
      } else {
        assert ActionKey(a).Some?;
        var k := ActionKey(a).value;
        ExecFrame(done.0, rest);
        assert forall i | 0 <= i < |rest| :: rest[i] == plan[i + 1] && ActionKey(rest[i]) != Some(k);
        assert Stored(x, k) == Stored(done.0, k);
        SettledIsNoOp(x, a);
        SameIsSame(x, again.0);
        RepeatIsNoOp(done.0, rest, again.0);
      }
    }
  }

  // ---------- the plan of a resource ----------

  lemma SpecPlanOrdinary(lim: Limitador)
    ensures AllOrdinary(SpecPlan(lim)) && Distinct(SpecPlan(lim))
  {
    hide ServiceManifest, PvcManifest, DeploymentManifest, ConfigMapManifest, PdbManifest, IsTagged, Manifest.Desired;
    PlannedOrdinary(lim);
    ManifestKeys(lim);
    var plan := SpecPlan(lim);
    var check := StorageCheck(lim);
    assert |check| <= 1;
    assert ActionKey(plan[0]) == Some(ServiceKey(lim)) && ActionKey(plan[1]) == Some(PVCKey(lim));
    var n := |check|;
    assert plan[2..2 + n] == check;
    assert n == 1 ==> plan[2] == check[0];
    assert ActionKey(plan[2 + n]) == Some(DeploymentKey(lim));
    assert ActionKey(plan[3 + n]) == Some(ConfigMapKey(lim)) && ActionKey(plan[4 + n]) == Some(PDBKey(lim));
    assert |plan| == 5 + n;
  }

  lemma PlannedOrdinary(lim: Limitador)
    ensures AllOrdinary(SpecPlan(lim))
  {
    hide SpecPlan;
    PlanContents(lim);
    assert forall a | a in SpecPlan(lim) :: PlannedFor(lim, a);
  }

  // ---------- pods ----------

  function Listed(w: World, lim: Limitador): seq<ListedPod> {
    ListedFrom(w, w.roster, lim.namespace, SelectorLabels(LABELS, lim))
  }

  /** The pod step finds a gate closed or every listed pod up to date. */
  predicate PodsSettled(w: World, lim: Limitador) {
    var pods := Listed(w, lim);
    var cm := View(w, ConfigMapKey(lim));
    || pods == [] || (lim.spec.replicas.Some? && |pods| != lim.GetReplicas())
    || cm.None? || PodPlan(pods, cm.value.version) == []
  }

  lemma SettledPodsNoOp(w: World, lim: Limitador)
    requires Quiet(w) && PodsSettled(w, lim)
    ensures AnnotatePods(w, lim).world == w && AnnotatePods(w, lim).error.None?
  {
    hide View, ListedFrom, SelectorLabels;
    QuietView(w, ConfigMapKey(lim));
  }

  predicate UpToDate(o: Option<Object>, version: nat) {
    o.Some? && PodVersion(o.value) == Some(Version(version))
  }

  /** Apart from the annotation, `after` has no field that `before` did not have with that value. */
  predicate OnlyAnnotated(before: Option<Object>, after: Option<Object>) {
    after.Some? ==>
      && before.Some?
      && forall p | p in after.value.content.fields && p != LIMITS_VERSION_ANNOTATION ::
           p in before.value.content.fields && before.value.content.fields[p] == after.value.content.fields[p]
  }

  lemma ApplyOnlyAnnotates(c: Content, version: nat)
    ensures var after := Apply(c, OPERATOR, map[LIMITS_VERSION_ANNOTATION := Version(version)]);
      && LIMITS_VERSION_ANNOTATION in after.fields && after.fields[LIMITS_VERSION_ANNOTATION] == Version(version)
      && forall p | p in after.fields && p != LIMITS_VERSION_ANNOTATION ::
           p in c.fields && c.fields[p] == after.fields[p]
  {
    hide OwnersAfter, Pruned;
    ApplyAchieves(c, OPERATOR, map[LIMITS_VERSION_ANNOTATION := Version(version)]);
  }

  lemma QuietPatch(w: World, k: Key, version: nat)
    requires Quiet(w) && k.kind == Pod && Stored(w, k).Some?
    ensures var done := Perform(w, ActionFor(PodPatch(k, version)));
      && done.1.None? && OnlyAt(w, done.0, k)
      && UpToDate(Stored(done.0, k), version) && OnlyAnnotated(Stored(w, k), Stored(done.0, k))
  {
    hide Put, Apply, ActionFor, PodPatch, OnlyAt;
    QuietView(w, k);
    PodPatchAction(k, version);
    var fields: FieldMap := map[LIMITS_VERSION_ANNOTATION := Version(version)];
    ApplyOnlyAnnotates(StoredContent(w, k), version);
    PutOnlyAt(w, k, Apply(StoredContent(w, k), OPERATOR, fields), AppliedObject(k, fields));
  }

  /** After the loop every pod of the list is up to date, and nothing but annotations of pods has changed. */
  ghost predicate LoopDone(w: World, x: World, pods: seq<ListedPod>, version: nat) {
    && Quiet(x) && x.resource == w.resource && x.roster == w.roster
    && (forall j: Key | j.kind != Pod :: Stored(x, j) == Stored(w, j))
    && (forall j: Key :: OnlyAnnotated(Stored(w, j), Stored(x, j)))
    && (forall j: Key :: Stored(w, j).Some? ==> Stored(x, j).Some?)
    && (forall j: Key :: UpToDate(Stored(w, j), version) ==> UpToDate(Stored(x, j), version))
    && (forall p | p in pods :: UpToDate(Stored(x, p.key), version))
  }

  lemma LoopDoneTransitive(w: World, x: World, y: World, first: ListedPod, rest: seq<ListedPod>, version: nat)
    requires LoopDone(w, x, [first], version) && LoopDone(x, y, rest, version)
    ensures LoopDone(w, y, [first] + rest, version)
  {
    hide Stored, UpToDate;
    forall j: Key
      ensures OnlyAnnotated(Stored(w, j), Stored(y, j))
    {
      assert OnlyAnnotated(Stored(w, j), Stored(x, j)) && OnlyAnnotated(Stored(x, j), Stored(y, j));
    }
    assert first in [first];
  }

  lemma {:induction false} QuietLoop(w: World, pods: seq<ListedPod>, version: nat)
    requires Quiet(w)
    requires forall p | p in pods ::
      (p.key.kind == Pod && Stored(w, p.key).Some? && (OutOfDate(p, version) || UpToDate(Stored(w, p.key), version)))
    ensures var done := Exec(w, PodPlan(pods, version)); done.1.None? && LoopDone(w, done.0, pods, version)
    decreases |pods|
  {
    hide Perform, ActionFor, PodPatch, OutOfDate, Stored, UpToDate, OnlyAnnotated;
    if pods == [] {
      NothingDone(w, version);
    } else {
      var p, rest := pods[0], pods[1..];
      assert p in pods && [p] + rest == pods;
      if OutOfDate(p, version) {
        var patch := ActionFor(PodPatch(p.key, version));
        var done := Perform(w, patch);
        assert PodPlan(pods, version)[0] == patch && PodPlan(pods, version)[1..] == PodPlan(rest, version);
        QuietPatch(w, p.key, version);
        PatchedOne(w, done.0, p, version);
        QuietLoop(done.0, rest, version);
        LoopDoneTransitive(w, done.0, Exec(done.0, PodPlan(rest, version)).0, p, rest, version);
      } else {
        assert PodPlan(pods, version) == PodPlan(rest, version);
        NothingDone(w, version);
        QuietLoop(w, rest, version);
        LoopDoneTransitive(w, w, Exec(w, PodPlan(rest, version)).0, p, rest, version);
      }
    }
  }

  lemma NothingDone(w: World, version: nat)
    requires Quiet(w)
    ensures LoopDone(w, w, [], version)
    ensures forall p: ListedPod :: UpToDate(Stored(w, p.key), version) ==> LoopDone(w, w, [p], version)
  {
  }

  lemma PatchedOne(w: World, x: World, p: ListedPod, version: nat)
    requires OnlyAt(w, x, p.key) && p.key.kind == Pod
    requires UpToDate(Stored(x, p.key), version) && OnlyAnnotated(Stored(w, p.key), Stored(x, p.key))
    ensures LoopDone(w, x, [p], version)
  {
    forall j: Key
      ensures OnlyAnnotated(Stored(w, j), Stored(x, j))
    {
      if j != p.key {
        assert Stored(x, j) == Stored(w, j);
      }
    }
    assert forall j: Key | j != p.key :: Stored(x, j) == Stored(w, j);
  }

  lemma {:induction false} AllFresh(pods: seq<ListedPod>, version: nat)
    requires forall p | p in pods :: !OutOfDate(p, version)
    ensures PodPlan(pods, version) == []
  {
    hide OutOfDate;
    if pods != [] {
      AllFresh(pods[1..], version);
    }
  }

  /** A pod listed after the loop was listed before it. */
  lemma {:induction false} ListedBefore(w: World, roster: seq<Key>, namespace: string, selector: FieldMap, k: Key)
    requires k in roster && k.kind == Pod && k.namespace == namespace
    requires View(w, k).Some? && Selected(View(w, k).value, selector)
    ensures exists p :: p in ListedFrom(w, roster, namespace, selector) && p.key == k
    decreases |roster|
  {
    if roster[0] == k {
      assert ListedFrom(w, roster, namespace, selector)[0].key == k;
    } else {
      ListedBefore(w, roster[1..], namespace, selector, k);
    }
  }

  lemma ListedStays(w: World, x: World, pods: seq<ListedPod>, version: nat, lim: Limitador, p: ListedPod)
    requires Quiet(w) && LoopDone(w, x, pods, version) && pods == Listed(w, lim) && p in Listed(x, lim)
    ensures UpToDate(Some(p.state), version)
  {
    hide LabelFiltered;
    var selector := SelectorLabels(LABELS, lim);
    ListedAreSelected(x, x.roster, lim.namespace, selector);
    QuietView(w, p.key);
    QuietView(x, p.key);
    assert OnlyAnnotated(Stored(w, p.key), Stored(x, p.key));
    assert LIMITS_VERSION_ANNOTATION !in selector && LIMITS_VERSION_ANNOTATION != APP_LABEL;
    ListedBefore(w, w.roster, lim.namespace, selector, p.key);
    var q :| q in Listed(w, lim) && q.key == p.key;
    assert UpToDate(Stored(x, q.key), version);
  }

  /** One quiet pod step settles the pods. */
  lemma PodStepSettles(w: World, lim: Limitador)
    requires Quiet(w)
    ensures var x := AnnotatePods(w, lim);
      && x.error.None? && Quiet(x.world) && PodsSettled(x.world, lim)
      && x.world.resource == w.resource && x.world.roster == w.roster
      && forall j: Key | j.kind != Pod :: Stored(x.world, j) == Stored(w, j)
  {
    hide View, ListedFrom, SelectorLabels, Exec, PodPlan, OutOfDate, OnlyAnnotated, UpToDate, Stored;
    var k := ConfigMapKey(lim);
    QuietView(w, k);
    var pods := Listed(w, lim);
    if pods != [] && !ReplicasMismatch(lim, |pods|) && View(w, k).Some? {
      var version := View(w, k).value.version;
      PodsAreStored(w, lim, version);
      QuietLoop(w, pods, version);
      var x := Exec(w, PodPlan(pods, version)).0;
      QuietView(x, k);
      assert Stored(x, k) == Stored(w, k);
      forall p | p in Listed(x, lim)
        ensures !OutOfDate(p, version)
      {
        ListedStays(w, x, pods, version, lim, p);
        FreshIsNotStale(p, version);
      }
      AllFresh(Listed(x, lim), version);
    }
  }

  lemma FreshIsNotStale(p: ListedPod, version: nat)
    requires UpToDate(Some(p.state), version)
    ensures !OutOfDate(p, version)
  {
  }

  lemma PodsAreStored(w: World, lim: Limitador, version: nat)
    requires Quiet(w)
    ensures forall p | p in Listed(w, lim) ::
      (p.key.kind == Pod && Stored(w, p.key).Some? && (OutOfDate(p, version) || UpToDate(Stored(w, p.key), version)))
  {
    hide View, ListedFrom, SelectorLabels, Stored;
    ListedAreSelected(w, w.roster, lim.namespace, SelectorLabels(LABELS, lim));
    forall p | p in Listed(w, lim)
      ensures Stored(w, p.key) == Some(p.state)
    {
      QuietView(w, p.key);
    }
  }

  // ---------- status ----------

  /** The stored status already says what a run that finds condition `c` would say. */
  ghost predicate Reflects(lim: Limitador, c: Condition) {
    && lim.status.observedGeneration == lim.generation
    && lim.status.service == Some(LimitadorService(ServiceHost(lim), Ports.Ports(lim.HTTPPort(), lim.GRPCPort())))
    && var cs := lim.status.conditions; var i := IndexOf(cs, c.conditionType);
       i < |cs| && cs[i] == c.(lastTransitionTime := cs[i].lastTransitionTime)
  }

  lemma ReflectsSteady(lim: Limitador, c: Condition, now: nat)
    requires Reflects(lim, c)
    ensures Steady(lim, NewStatus(lim, c, now))
  {
    var cs := lim.status.conditions;
    assert SetCondition(cs, c, now) == cs;
  }

  /** A steady status reflects: the comparison up to order leaves no room for a different Ready condition. */
  lemma SteadyReflects(lim: Limitador, c: Condition, now: nat)
    requires UniqueTypes(lim.status.conditions) && Steady(lim, NewStatus(lim, c, now))
    ensures Reflects(lim, c)
  {
    var cs := lim.status.conditions;
    var r := SetCondition(cs, c, now);
    SetConditionKeepsOthers(cs, c, now);
    EqualsIsCanonical(lim.status, NewStatus(lim, c, now));
    assert |multiset(cs)| == |cs| && |multiset(r)| == |r|;
    var i := IndexOf(cs, c.conditionType);
    assert i < |cs|;
    assert cs[i] in multiset(r);
    var j :| 0 <= j < |r| && r[j] == cs[i];
    assert r[i].conditionType == c.conditionType;
  }

  lemma IndexInFront(s: seq<Condition>, t: seq<Condition>, kind: string)
    requires IndexOf(s, kind) < |s|
    ensures IndexOf(s + t, kind) == IndexOf(s, kind)
  {
    var i, j := IndexOf(s, kind), IndexOf(s + t, kind);
    assert (s + t)[i].conditionType == kind;
    assert forall k | 0 <= k < |s| :: (s + t)[k] == s[k];
  }

  lemma MergeReflects(r: Resource, c: Condition, now: nat)
    ensures Reflects(MergeStatus(r, NewStatus(r.lim, c, now)).lim, c)
  {
    hide KeptConditions;
    var status := NewStatus(r.lim, c, now);
    var cs := r.lim.status.conditions;
    var kept := KeptConditions(cs, status.conditions, r.listed - TypesOf(status.conditions) - r.foreign);
    var i := IndexOf(cs, c.conditionType);
    var s := status.conditions;
    assert s[i].conditionType == c.conditionType;
    assert IndexOf(s, c.conditionType) == i;
    IndexInFront(s, kept, c.conditionType);
    assert (s + kept)[i] == s[i];
  }

  /** The condition a quiet run computes, from the stored Deployment alone. */
  function ReadyFrom(d: Option<Object>, k: Key, specErr: Option<Error>): Condition {
    if specErr.Some? then ErrorCondition(specErr.value)
    else
      match Visible(d, k)
      case None => Condition(READY, False, 0, 0, "LimitadorNotAvailable", k.name + " not found")
      case Some(o) =>
        match Unavailability(o)
        case None => READY_CONDITION
        case Some(reason) => Condition(READY, False, 0, 0, "LimitadorNotAvailable", reason)
  }

  lemma QuietReady(w: World, lim: Limitador, specErr: Option<Error>)
    requires Quiet(w)
    ensures var k := DeploymentKey(lim); var r := ReadyCondition(w, lim, specErr);
      && r.1 == Ok(ReadyFrom(Stored(w, k), k, specErr))
      && SameStore(w, r.0) && r.0.now == w.now
  {
    hide View, Visible, Unavailability, DeploymentKey;
    QuietView(w, DeploymentKey(lim));
  }

  /** After a quiet status step the stored status reflects the condition found. */
  lemma StatusStepSettles(w: World, r: Resource, specErr: Option<Error>)
    requires Quiet(w) && StoredResource(w) == Some(r) && UniqueTypes(r.lim.status.conditions)
    ensures var x := StatusEffect(w, r.lim, specErr).0; var k := DeploymentKey(r.lim);
      && Quiet(x) && x.hist == w.hist && x.roster == w.roster
      && StoredResource(x).Some?
      && (StoredResource(x).value.lim == r.lim.(status := StoredResource(x).value.lim.status))
      && Reflects(StoredResource(x).value.lim, ReadyFrom(Stored(w, k), k, specErr))
  {
    hide ReadyCondition, ReadyFrom, Reflects, NewStatus, MergeStatus, DeploymentKey, Stored, Steady;
    var k := DeploymentKey(r.lim);
    QuietReady(w, r.lim, specErr);
    var c := ReadyFrom(Stored(w, k), k, specErr);
    var y := ReadyCondition(w, r.lim, specErr).0;
    var status := NewStatus(r.lim, c, y.now);
    if Steady(r.lim, status) {
      SteadyReflects(r.lim, c, y.now);
    } else {
      SameIsSame(w, y);
      QuietView(y, k);
      MergeReflects(r, c, y.now);
      MergeOnlyStatus(r, status);
      var z := PutResource(y, Some(MergeStatus(r, status)));
      assert StoredResource(z) == Some(MergeStatus(r, status));
    }
  }

  lemma MergeOnlyStatus(r: Resource, status: LimitadorStatus)
    ensures MergeStatus(r, status).lim == r.lim.(status := MergeStatus(r, status).lim.status)
  {
  }

  lemma ReflectedIsNoOp(x: World, lim: Limitador, specErr: Option<Error>)
    requires Quiet(x)
    requires var k := DeploymentKey(lim); Reflects(lim, ReadyFrom(Stored(x, k), k, specErr))
    ensures var y := StatusEffect(x, lim, specErr);
      && SameStore(x, y.0) && y.1.None?
      && (y.0.journal == x.journal || exists d :: y.0.journal == x.journal + [CheckedDeployment(d)])
  {
    hide ReadyCondition, ReadyFrom, Reflects, NewStatus, DeploymentKey, Stored, Steady;
    var k := DeploymentKey(lim);
    QuietReady(x, lim, specErr);
    ReadyConditionJournal(x, lim, specErr);
    ReflectsSteady(lim, ReadyFrom(Stored(x, k), k, specErr), ReadyCondition(x, lim, specErr).0.now);
  }

  // ---------- the theorem ----------

  lemma SamePods(w: World, a: Limitador, b: Limitador)
    requires a.namespace == b.namespace && a.name == b.name && a.spec == b.spec
    ensures AnnotatePods(w, a) == AnnotatePods(w, b) && PodsSettled(w, a) == PodsSettled(w, b)
    ensures DeploymentKey(a) == DeploymentKey(b)
  {
    hide Get, ListPods, Exec, ListedFrom, View;
    assert SelectorLabels(LABELS, a) == SelectorLabels(LABELS, b);
  }

  /** The first run, spec part: plan and pods leave a world on which both are no-ops. */
  lemma SpecSettles(w: World, lim: Limitador)
    requires Quiet(w)
    ensures var x := SpecEffect(w, lim);
      && Quiet(x.world) && x.world.resource == w.resource
      && Agrees(x.world, Exec(w, SpecPlan(lim)).0, SpecPlan(lim))
      && x.error == Exec(w, SpecPlan(lim)).1
      && (x.error.None? ==> PodsSettled(x.world, lim))
  {
    hide SpecPlan, Exec, AnnotatePods, Stored, PodsSettled, Ordinary, Distinct, ActionKey;
    var plan := SpecPlan(lim);
    SpecPlanOrdinary(lim);
    ExecFrame(w, plan);
    var done := Exec(w, plan);
    if done.1.None? {
      PodStepSettles(done.0, lim);
      var pods := AnnotatePods(done.0, lim);
      NoPodKeys(lim);
      NoteSettled(pods.world, SpecCompleted(lim.generation), lim);
    }
  }

  lemma NoteSettled(w: World, e: Event, lim: Limitador)
    ensures PodsSettled(Note(w, e), lim) == PodsSettled(w, lim) && SameStore(w, Note(w, e))
    ensures forall j: Key :: Stored(Note(w, e), j) == Stored(w, j)
  {
    hide PodPlan, SelectorLabels;
    var x := Note(w, e);
    assert forall j: Key :: View(x, j) == View(w, j);
    ListedSame(w, x, w.roster, lim.namespace, SelectorLabels(LABELS, lim));
  }

  lemma {:induction false} ListedSame(w: World, x: World, roster: seq<Key>, namespace: string, selector: FieldMap)
    requires forall j: Key :: View(x, j) == View(w, j)
    ensures ListedFrom(x, roster, namespace, selector) == ListedFrom(w, roster, namespace, selector)
    decreases |roster|
  {
    if roster != [] {
      ListedSame(w, x, roster[1..], namespace, selector);
    }
  }

  lemma NoPodKeys(lim: Limitador)
    ensures forall i | 0 <= i < |SpecPlan(lim)| && ActionKey(SpecPlan(lim)[i]).Some? ::
      ActionKey(SpecPlan(lim)[i]).value.kind != Pod
  {
    hide SpecPlan;
    PlanContents(lim);
    assert forall i | 0 <= i < |SpecPlan(lim)| :: SpecPlan(lim)[i] in SpecPlan(lim);
  }

  /** No pod patched, no status written. */
  predicate Undisturbing(e: Event) {
    !e.WroteStatus? && !(e.AppliedObject? && e.key.kind == Pod)
  }

  /** The second run, spec part. */
  lemma SpecRepeats(w: World, lim: Limitador, x: World)
    requires Quiet(w) && Quiet(x)
    requires Agrees(x, Exec(w, SpecPlan(lim)).0, SpecPlan(lim))
    requires Exec(w, SpecPlan(lim)).1.None? ==> PodsSettled(x, lim)
    ensures var y := SpecEffect(x, lim);
      && SameStore(x, y.world) && y.error == Exec(w, SpecPlan(lim)).1
      && x.journal <= y.world.journal
      && forall i | |x.journal| <= i < |y.world.journal| :: Undisturbing(y.world.journal[i])
  {
    hide SpecPlan, Exec, AnnotatePods, PodsSettled, Stored, Ordinary, Distinct, ActionKey, Records, Agrees, AllOrdinary;
    var plan := SpecPlan(lim);
    SpecPlanOrdinary(lim);
    RepeatIsNoOp(w, plan, x);
    var done := Exec(x, plan);
    SpecExecRecords(x, lim);
    SpecEventsUndisturbing(x, done.0, lim);
    if done.1.None? {
      SamePodsSettled(x, done.0, lim);
      SettledPodsNoOp(done.0, lim);
    }
  }

  lemma SpecEventsUndisturbing(w: World, x: World, lim: Limitador)
    requires Records(w, x, SpecEvents(lim))
    ensures w.journal <= x.journal && forall i | |w.journal| <= i < |x.journal| :: Undisturbing(x.journal[i])
  {
    hide SpecPlan, Sound;
  }

  lemma SamePodsSettled(w: World, x: World, lim: Limitador)
    requires SameStore(w, x)
    ensures PodsSettled(x, lim) == PodsSettled(w, lim) && (Quiet(w) ==> Quiet(x))
  {
    hide PodPlan, SelectorLabels;
    assert forall j: Key :: View(x, j) == View(w, j);
    ListedSame(w, x, w.roster, lim.namespace, SelectorLabels(LABELS, lim));
  }

  lemma QuietRead(w: World)
    requires Quiet(w)
    ensures GetLimitador(w) ==
      (w, match StoredResource(w) case None => Err(NotFound("limitador not found")) case Some(r) => Ok(r.lim))
  {
    assert w.resource[..|w.resource|] == w.resource;
  }

  lemma StoredIsUnique(w: World, r: Resource)
    requires Sound(w) && StoredResource(w) == Some(r)
    ensures UniqueTypes(r.lim.status.conditions)
  {
    assert w.resource[|w.resource| - 1] == Some(r);
  }

  /** A quiet reconcile of a resource that is there: what it leaves. */
  lemma FirstRun(w: World, r: Resource)
    requires Quiet(w) && StoredResource(w) == Some(r) && UniqueTypes(r.lim.status.conditions)
    ensures var x := ResourceEffect(w, r.lim).world; var e := Exec(w, SpecPlan(r.lim)).1; var k := DeploymentKey(r.lim);
      && Quiet(x)
      && Agrees(x, Exec(w, SpecPlan(r.lim)).0, SpecPlan(r.lim))
      && (e.None? ==> PodsSettled(x, r.lim))
      && StoredResource(x).Some?
      && StoredResource(x).value.lim == r.lim.(status := StoredResource(x).value.lim.status)
      && Reflects(StoredResource(x).value.lim, ReadyFrom(Stored(x, k), k, e))
  {
    hide SpecPlan, Exec, PodsSettled, Stored, ActionKey, StatusEffect, SpecEffect, Reflects, ReadyFrom, DeploymentKey;
    SpecSettles(w, r.lim);
    var spec := SpecEffect(w, r.lim);
    assert StoredResource(spec.world) == StoredResource(w);
    StatusStepSettles(spec.world, r, spec.error);
    var x := StatusEffect(spec.world, r.lim, spec.error).0;
    SameHistSettled(spec.world, x, r.lim);
  }

  lemma SameHistSettled(w: World, x: World, lim: Limitador)
    requires Quiet(w) && Quiet(x) && x.hist == w.hist && x.roster == w.roster
    ensures PodsSettled(x, lim) == PodsSettled(w, lim)
    ensures forall j: Key :: Stored(x, j) == Stored(w, j)
  {
    hide PodPlan, SelectorLabels;
    assert forall j: Key :: Stored(x, j) == Stored(w, j);
    forall j: Key
      ensures View(x, j) == View(w, j)
    {
      QuietView(w, j);
      QuietView(x, j);
    }
    ListedSame(w, x, w.roster, lim.namespace, SelectorLabels(LABELS, lim));
  }

  /** With fresh reads and a quiet environment, whatever the first reconcile ended with, a second one at any later time
      leaves every stored version as it is, ends with the same spec error, patches no pod and writes no status: the
      chain of self-triggered runs stops. */
  lemma ReconcileIdempotent(w: World, later: nat)
    requires Quiet(w) && Sound(w)
    ensures var x := ReconcileEffect(w).world.(now := later); var y := ReconcileEffect(x).world;
      && SameStore(x, y)
      && x.journal <= y.journal
      && forall i | |x.journal| <= i < |y.journal| :: Undisturbing(y.journal[i])
  {
    hide SpecPlan, Exec, PodsSettled, Stored, ActionKey, StatusEffect, SpecEffect, Reflects, ReadyFrom, DeploymentKey,
         GetLimitador, Sound, Undisturbing;
    QuietRead(w);
    if StoredResource(w).Some? && !StoredResource(w).value.lim.deleting {
      var r := StoredResource(w).value;
      StoredIsUnique(w, r);
      FirstRun(w, r);
      var x := ResourceEffect(w, r.lim).world.(now := later);
      LaterSame(ResourceEffect(w, r.lim).world, later, r.lim);
      SecondRun(w, r, x);
    } else {
      var x := w.(now := later);
      QuietRead(x);
    }
  }

  lemma LaterSame(w: World, later: nat, lim: Limitador)
    ensures var x := w.(now := later);
      && SameStore(w, x) && PodsSettled(x, lim) == PodsSettled(w, lim)
      && forall j: Key :: Stored(x, j) == Stored(w, j)
  {
    hide PodsSettled;
    SamePodsSettled(w, w.(now := later), lim);
    SameIsSame(w, w.(now := later));
  }

  lemma SecondRun(w: World, r: Resource, x: World)
    requires Quiet(w) && Quiet(x) && StoredResource(x).Some? && !r.lim.deleting
    requires Agrees(x, Exec(w, SpecPlan(r.lim)).0, SpecPlan(r.lim))
    requires Exec(w, SpecPlan(r.lim)).1.None? ==> PodsSettled(x, r.lim)
    requires StoredResource(x).value.lim == r.lim.(status := StoredResource(x).value.lim.status)
    requires var k := DeploymentKey(r.lim);
      Reflects(StoredResource(x).value.lim, ReadyFrom(Stored(x, k), k, Exec(w, SpecPlan(r.lim)).1))
    ensures var y := ReconcileEffect(x).world;
      && SameStore(x, y) && x.journal <= y.journal
      && forall i | |x.journal| <= i < |y.journal| :: Undisturbing(y.journal[i])
  {
    hide SpecPlan, Exec, PodsSettled, Stored, ActionKey, StatusEffect, SpecEffect, Reflects, ReadyFrom, DeploymentKey,
         GetLimitador, Agrees;
    QuietRead(x);
    var lim := StoredResource(x).value.lim;
    SamePlan(lim, r.lim);
    SamePods(x, lim, r.lim);
    SpecRepeats(w, lim, x);
    var spec := SpecEffect(x, lim);
    SameIsSame(x, spec.world);
    ReflectedIsNoOp(spec.world, lim, spec.error);
    var y := StatusEffect(spec.world, lim, spec.error).0;
    assert spec.world.journal <= y.journal;
    assert forall i | |spec.world.journal| <= i < |y.journal| :: y.journal[i].CheckedDeployment?;
    assert forall i | |x.journal| <= i < |spec.world.journal| :: y.journal[i] == spec.world.journal[i];
  }
}
