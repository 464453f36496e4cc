/** Two resources with different identities do not meet: their plans touch different objects and commute, and no pod
    belongs to both. Also: when a quiet reconcile succeeds. */
module Independence {
  import opened Wrappers
  import opened Fields
  import opened Objects
  import opened LimitadorTypes
  import opened K8sObjects
  import opened Cluster
  import opened Reconcilers
  import opened Controller
  import opened Runs
  import opened Convergence
  import opened Failures
  import opened Idempotence

  predicate Different(a: Limitador, b: Limitador) {
    a.namespace != b.namespace || a.name != b.name
  }

  lemma PrefixInjective(prefix: string, a: string, b: string)
    requires prefix + a == prefix + b
    ensures a == b
  {
    assert (prefix + a)[|prefix|..] == a && (prefix + b)[|prefix|..] == b;
  }

  /** Names are injective per kind, so the children are different objects. */
  lemma ChildrenDisjoint(a: Limitador, b: Limitador)
    requires Different(a, b)
    ensures Children(a) !! Children(b)
  {
    if a.namespace == b.namespace {
      if "limitador-" + a.name == "limitador-" + b.name {
        PrefixInjective("limitador-", a.name, b.name);
      }
      if "limitador-limits-config-" + a.name == "limitador-limits-config-" + b.name {
        PrefixInjective("limitador-limits-config-", a.name, b.name);
      }
    }
  }

  /** No pod is listed for both resources. */
  lemma PodsDisjoint(w: World, a: Limitador, b: Limitador)
    requires Different(a, b)
    ensures forall p, q | p in Listed(w, a) && q in Listed(w, b) :: p.key != q.key
  {
    hide View;
    var forA, forB := SelectorLabels(LABELS, a), SelectorLabels(LABELS, b);
    ListedAreSelected(w, w.roster, a.namespace, forA);
    ListedAreSelected(w, w.roster, b.namespace, forB);
    var nameLabel := At(LABELS, LimitadorResource);
    forall p, q | p in Listed(w, a) && q in Listed(w, b)
      ensures p.key != q.key
    {
      assert nameLabel in forA && nameLabel in forB;
      assert p.state.content.fields[nameLabel] == Text(a.name) && View(w, p.key) == Some(p.state);
      assert q.state.content.fields[nameLabel] == Text(b.name) && View(w, q.key) == Some(q.state);
    }
  }

  // ---------- everything about an object except its version number ----------

  datatype Essence = Essence(generation: nat, content: Content, status: DeploymentStatus)

  function EssenceOf(o: Option<Object>): Option<Essence> {
    if o.None? then None else Some(Essence(o.value.generation, o.value.content, o.value.status))
  }

  function EssenceAt(w: World, k: Key): Option<Essence> {
    EssenceOf(Stored(w, k))
  }

  lemma PutEssence(w: World, x: World, k: Key, c: Content, e: Event)
    requires EssenceAt(w, k) == EssenceAt(x, k)
    ensures EssenceAt(Note(Put(w, k, c), e), k) == EssenceAt(Note(Put(x, k, c), e), k)
  {
    hide SpecFields;
    StoredAfterAppend(w, k, Some(NextObject(w, k, c)));
    StoredAfterAppend(x, k, Some(NextObject(x, k, c)));
    assert Stored(Note(Put(w, k, c), e), k) == Stored(Put(w, k, c), k);
    assert Stored(Note(Put(x, k, c), e), k) == Stored(Put(x, k, c), k);
  }

  lemma RemoveEssence(w: World, k: Key, e: Event)
    requires Stored(w, k).Some?
    ensures EssenceAt(Note(Remove(w, k), e), k) == None
  {
    StoredAfterAppend(w, k, None);
    assert Stored(Note(Remove(w, k), e), k) == Stored(Remove(w, k), k);
  }

  /** A quiet action sees and leaves the same on two worlds that agree, up to versions, on the object it is about. */
  lemma PerformEssence(w: World, x: World, a: Action)
    requires Quiet(w) && Quiet(x) && Ordinary(a)
    requires ActionKey(a).Some? ==> EssenceAt(w, ActionKey(a).value) == EssenceAt(x, ActionKey(a).value)
    ensures Perform(w, a).1 == Perform(x, a).1
    ensures ActionKey(a).Some? ==>
      EssenceAt(Perform(w, a).0, ActionKey(a).value) == EssenceAt(Perform(x, a).0, ActionKey(a).value)
  {
    hide Put, Remove, Apply;
    if ActionKey(a).Some? {
      QuietView(w, ActionKey(a).value);
      QuietView(x, ActionKey(a).value);
    }
    match a
    case Enforce(k, fields) =>
      assert StoredContent(w, k) == StoredContent(x, k);
      PutEssence(w, x, k, Apply(StoredContent(w, k), OPERATOR, fields), AppliedObject(k, fields));
    case Discard(k) =>
      if Stored(w, k).Some? {
        RemoveEssence(w, k, DeletedObject(k));
        RemoveEssence(x, k, DeletedObject(k));
      }
    case Provide(k, fields) =>
      PutEssence(w, x, k, Content(fields, map[CREATOR := fields.Keys]), CreatedObject(k, fields));
    case DemandURL(_) =>
    case Fail(_) =>
  }

  ghost predicate AgreeUpToVersions(w: World, x: World, plan: seq<Action>) {
    forall a | a in plan && ActionKey(a).Some? :: EssenceAt(w, ActionKey(a).value) == EssenceAt(x, ActionKey(a).value)
  }

  lemma {:induction false} ExecEssence(w: World, x: World, plan: seq<Action>)
    requires Quiet(w) && Quiet(x) && AllOrdinary(plan) && AgreeUpToVersions(w, x, plan)
    ensures Exec(w, plan).1 == Exec(x, plan).1
    ensures AgreeUpToVersions(Exec(w, plan).0, Exec(x, plan).0, plan)
    decreases |plan|
  {
    hide Perform, EssenceOf, Stored, Ordinary;
    if plan != [] {
      var a, rest := plan[0], plan[1..];
      assert a in plan;
      QuietPerform(w, a);
      QuietPerform(x, a);
      PerformEssence(w, x, a);
      var w1, x1 := Perform(w, a), Perform(x, a);
      forall b | b in plan && ActionKey(b).Some?
        ensures EssenceAt(w1.0, ActionKey(b).value) == EssenceAt(x1.0, ActionKey(b).value)
      {
        StillAgrees(w, x, w1.0, x1.0, a, ActionKey(b).value);
      }
      if w1.1.None? {
        ExecEssence(w1.0, x1.0, rest);
        RestAgrees(w1.0, x1.0, plan);
      }
    }
  }

  lemma StillAgrees(w: World, x: World, w1: World, x1: World, a: Action, k: Key)
    requires EssenceAt(w, k) == EssenceAt(x, k)
    requires forall j: Key | !KeyOf(a, j) :: Stored(w1, j) == Stored(w, j)
    requires forall j: Key | !KeyOf(a, j) :: Stored(x1, j) == Stored(x, j)
    requires ActionKey(a).Some? ==> EssenceAt(w1, ActionKey(a).value) == EssenceAt(x1, ActionKey(a).value)
    ensures EssenceAt(w1, k) == EssenceAt(x1, k)
  {
    hide EssenceOf, Stored;
  }

  /** The first object of the plan agrees after the rest as well. */
  lemma RestAgrees(w: World, x: World, plan: seq<Action>)
    requires plan != [] && Quiet(w) && Quiet(x) && AllOrdinary(plan)
    requires AgreeUpToVersions(w, x, plan)
    requires AgreeUpToVersions(Exec(w, plan[1..]).0, Exec(x, plan[1..]).0, plan[1..])
    ensures AgreeUpToVersions(Exec(w, plan[1..]).0, Exec(x, plan[1..]).0, plan)
  {
    hide Exec, EssenceOf, Stored, Ordinary;
    var rest := plan[1..];
    ExecFrame(w, rest);
    ExecFrame(x, rest);
    forall b | b in plan && ActionKey(b).Some?
      ensures EssenceAt(Exec(w, rest).0, ActionKey(b).value) == EssenceAt(Exec(x, rest).0, ActionKey(b).value)
    {
      var k := ActionKey(b).value;
      if i :| 0 <= i < |rest| && KeyOf(rest[i], k) {
        assert rest[i] in rest && ActionKey(rest[i]) == Some(k);
      }
    }
  }

  /** Nothing the first plan writes is looked at by the second. */
  ghost predicate Apart(first: seq<Action>, second: seq<Action>) {
    forall a, b, k | a in first && b in second && KeyOf(a, k) :: ActionKey(b) != Some(k)
  }

  lemma ApartKeepsView(w: World, first: seq<Action>, second: seq<Action>)
    requires Quiet(w) && AllOrdinary(first) && Apart(first, second)
    ensures AgreeUpToVersions(w, Exec(w, first).0, second)
  {
    hide Exec, EssenceOf, Stored, Ordinary;
    ExecFrame(w, first);
    forall b | b in second && ActionKey(b).Some?
      ensures EssenceAt(Exec(w, first).0, ActionKey(b).value) == EssenceAt(w, ActionKey(b).value)
    {
      var k := ActionKey(b).value;
      assert forall i | 0 <= i < |first| :: first[i] in first && !KeyOf(first[i], k);
    }
  }

  /** Plans that are apart both ways commute up to version numbers, in what they store and in how they end. */
  lemma ApartPlansCommute(w: World, p: seq<Action>, q: seq<Action>)
    requires Quiet(w) && AllOrdinary(p) && AllOrdinary(q) && Apart(p, q) && Apart(q, p)
    ensures var wp := Exec(w, p); var wq := Exec(w, q); var wpq := Exec(wp.0, q); var wqp := Exec(wq.0, p);
      && wqp.1 == wp.1 && wpq.1 == wq.1
      && forall k: Key :: EssenceAt(wpq.0, k) == EssenceAt(wqp.0, k)
  {
    hide Exec, EssenceOf, Stored, Ordinary;
    var wp, wq := Exec(w, p).0, Exec(w, q).0;
    ExecFrame(w, p);
    ExecFrame(w, q);
    ApartKeepsView(w, p, q);
    ApartKeepsView(w, q, p);
    ExecEssence(w, wp, q);
    ExecEssence(w, wq, p);
    ExecFrame(wp, q);
    ExecFrame(wq, p);
    forall k: Key
      ensures EssenceAt(Exec(wp, q).0, k) == EssenceAt(Exec(wq, p).0, k)
    {
      if i :| 0 <= i < |p| && KeyOf(p[i], k) {
        assert p[i] in p && ActionKey(p[i]) == Some(k);
        assert forall j | 0 <= j < |q| :: q[j] in q && !KeyOf(q[j], k) by { NotWritten(p, q, i, k); }
      } else if j :| 0 <= j < |q| && KeyOf(q[j], k) {
        assert q[j] in q && ActionKey(q[j]) == Some(k);
      }
    }
  }

  lemma NotWritten(p: seq<Action>, q: seq<Action>, i: nat, k: Key)
    requires Apart(p, q) && i < |p| && KeyOf(p[i], k)
    ensures forall j | 0 <= j < |q| :: !KeyOf(q[j], k)
  {
    forall j | 0 <= j < |q|
      ensures !KeyOf(q[j], k)
    {
      assert p[i] in p && q[j] in q && ActionKey(q[j]) != Some(k);
    }
  }

  /** The spec plans of two different resources commute, also when both use the same Redis secret. */
  lemma PlansCommute(w: World, a: Limitador, b: Limitador)
    requires Quiet(w) && Different(a, b)
    ensures var p, q := SpecPlan(a), SpecPlan(b);
      var wp := Exec(w, p); var wq := Exec(w, q); var wpq := Exec(wp.0, q); var wqp := Exec(wq.0, p);
      && wqp.1 == wp.1 && wpq.1 == wq.1
      && forall k: Key :: EssenceAt(wpq.0, k) == EssenceAt(wqp.0, k)
  {
    hide SpecPlan, Exec, Ordinary, Children;
    PlannedOrdinary(a);
    PlannedOrdinary(b);
    PlansApart(a, b);
    PlansApart(b, a);
    ApartPlansCommute(w, SpecPlan(a), SpecPlan(b));
  }

  lemma PlansApart(a: Limitador, b: Limitador)
    requires Different(a, b)
    ensures Apart(SpecPlan(a), SpecPlan(b))
  {
    hide SpecPlan, Children;
    ChildrenDisjoint(a, b);
    PlanKeys(a);
    PlanKeys(b);
    PlanContents(b);
    forall x, y, k | x in SpecPlan(a) && y in SpecPlan(b) && KeyOf(x, k)
      ensures ActionKey(y) != Some(k)
    {
      assert PlannedFor(b, y);
      assert k in Children(a) && k.kind != Secret;
      assert KeyOf(y, k) ==> k in Children(b);
    }
  }

  // ---------- when a quiet reconcile succeeds ----------

  /** In a quiet world each step of a plan fails or succeeds on its own. */
  lemma {:induction false} ExecSucceedsIff(w: World, plan: seq<Action>)
    requires Quiet(w) && AllOrdinary(plan) && Distinct(plan)
    ensures Exec(w, plan).1.None? <==> forall a | a in plan :: Perform(w, a).1.None?
    decreases |plan|
  {
    hide Perform, Stored, Ordinary;
    if plan != [] {
      var a, rest := plan[0], plan[1..];
      assert a in plan;
      QuietPerform(w, a);
      var done := Perform(w, a);
      if done.1.None? {
        ExecSucceedsIff(done.0, rest);
        forall b | b in rest
          ensures Perform(done.0, b).1 == Perform(w, b).1
        {
          var i :| 0 <= i < |rest| && rest[i] == b;
          assert ActionKey(plan[0]).Some? && plan[i + 1] == b && ActionKey(plan[0]) != ActionKey(plan[i + 1]);
          assert b in plan;
          if ActionKey(b).Some? {
            assert !KeyOf(a, ActionKey(b).value);
          }
          OutcomeLocal(w, done.0, b);
        }
        assert forall b :: b in plan <==> b == a || b in rest;
      }
    }
  }

  /** The claim is there but does not carry the operator's label, so the cache hides it and creating it fails. */
  predicate ClaimHidden(w: World, lim: Limitador) {
    var o := Stored(w, PVCKey(lim));
    HasDisk(lim.spec) && o.Some? && !HasAppLabel(o.value.content)
  }

  predicate OutcomeOf(w: World, lim: Limitador, a: Action) {
    match a
    case Provide(k, _) => !ClaimHidden(w, lim)
    case DemandURL(k) => Stored(w, k).Some? && SECRET_URL in Stored(w, k).value.content.fields
    case Fail(_) => false
    case _ => true
  }

  lemma QuietOutcome(w: World, lim: Limitador, a: Action)
    requires Quiet(w) && a in SpecPlan(lim)
    ensures Perform(w, a).1.None? <==> OutcomeOf(w, lim, a)
  {
    hide SpecPlan, Put, Remove, Apply;
    PlanContents(lim);
    assert PlannedFor(lim, a);
    if ActionKey(a).Some? {
      QuietView(w, ActionKey(a).value);
    }
  }

  /** In a quiet world the spec plan of a resource succeeds exactly when its storage is usable and its claim is not
      hidden by somebody else's object of the same name. */
  lemma QuietPlanSucceedsIff(w: World, lim: Limitador)
    requires Quiet(w)
    ensures Exec(w, SpecPlan(lim)).1.None? <==> StorageUsable(w, lim) && !ClaimHidden(w, lim)
  {
    hide SpecPlan, Perform, Exec, Ordinary, ClaimHidden, Distinct, Stored;
    SpecPlanOrdinary(lim);
    ExecSucceedsIff(w, SpecPlan(lim));
    forall a | a in SpecPlan(lim)
      ensures Perform(w, a).1.None? <==> OutcomeOf(w, lim, a)
    {
      QuietOutcome(w, lim, a);
    }
    CriticalActions(lim);
    if StorageUsable(w, lim) && !ClaimHidden(w, lim) {
      forall a | a in SpecPlan(lim)
        ensures OutcomeOf(w, lim, a)
      {
      }
    }
    if UsesRedis(SelectedStorage(lim.spec)) && !StorageUsable(w, lim) {
      var check := StorageCheck(lim)[0];
      assert check in SpecPlan(lim) && !OutcomeOf(w, lim, check);
    }
    if ClaimHidden(w, lim) {
      HiddenHasDisk(w, lim);
      ClaimWanted(lim);
      assert !OutcomeOf(w, lim, ClaimActionFor(PvcManifest(lim)));
    }
  }

  lemma HiddenHasDisk(w: World, lim: Limitador)
    requires ClaimHidden(w, lim)
    ensures HasDisk(lim.spec)
  {
  }

  lemma CriticalActions(lim: Limitador)
    ensures ClaimActionFor(PvcManifest(lim)) in SpecPlan(lim)
    ensures forall a | a in StorageCheck(lim) :: a in SpecPlan(lim)
    ensures forall a | a in SpecPlan(lim) && (a.DemandURL? || a.Fail?) :: a in StorageCheck(lim)
  {
    hide ServiceManifest, PvcManifest, DeploymentManifest, ConfigMapManifest, PdbManifest, StorageCheck;
    FirstTwoPlanned(lim);
    forall a | a in StorageCheck(lim)
      ensures a in SpecPlan(lim)
    {
      assert a in DeploymentPlan(lim);
    }
    forall a | a in SpecPlan(lim) && (a.DemandURL? || a.Fail?)
      ensures a in StorageCheck(lim)
    {
      assert a in StorageCheck(lim)
        || a in [ActionFor(ServiceManifest(lim)), ClaimActionFor(PvcManifest(lim)), ActionFor(DeploymentManifest(lim)),
                 ActionFor(ConfigMapManifest(lim)), ActionFor(PdbManifest(lim))];
    }
  }

  /** In a quiet world a reconcile of a resource that is there and not being deleted ends without error exactly when
      its storage is usable and its claim is not hidden. */
  lemma QuietReconcileSucceedsIff(w: World, r: Resource)
    requires Quiet(w) && StoredResource(w) == Some(r) && !r.lim.deleting
    ensures ReconcileEffect(w).error.None? <==> StorageUsable(w, r.lim) && !ClaimHidden(w, r.lim)
  {
    hide SpecPlan, Exec, StorageUsable, ClaimHidden, GetLimitador, AnnotatePods, Distinct, Ordinary, PodsSettled;
    QuietRead(w);
    QuietPlanSucceedsIff(w, r.lim);
    var done := Exec(w, SpecPlan(r.lim));
    SpecPlanOrdinary(r.lim);
    ExecFrame(w, SpecPlan(r.lim));
    if done.1.None? {
      PodStepSettles(done.0, r.lim);
      var x := SpecEffect(w, r.lim);
      QuietStatusSucceeds(x.world, r.lim, None);
    }
  }

  lemma QuietStatusSucceeds(w: World, lim: Limitador, specErr: Option<Error>)
    requires Quiet(w) && StoredResource(w).Some?
    ensures StatusEffect(w, lim, specErr).1.None?
  {
    hide ReadyCondition, ReadyFrom, NewStatus, MergeStatus, DeploymentKey, Stored, Steady;
    QuietReady(w, lim, specErr);
    var y := ReadyCondition(w, lim, specErr).0;
    SameIsSame(w, y);
    QuietView(y, DeploymentKey(lim));
  }
}
