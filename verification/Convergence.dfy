/** Convergence: as long as the resource is read as it asks, no failure ever loses ground, and one failure-free pass
    puts every child object in its desired state. Only the claim needs fresh reads. */
module Convergence {
  import opened Wrappers
  import opened Fields
  import opened Objects
  import opened LimitadorTypes
  import opened K8sObjects
  import opened CommandLine
  import opened Cluster
  import opened Reconcilers
  import opened Controller
  import opened Histories
  import opened Runs

  // ---------- the environment convergence assumes ----------

  /** Steps that leave alone what the operator wants of the children of `lim`. Other field managers may still apply to
      the children, and write and remove any fields of them that the plan does not list; pods and unrelated objects may
      change freely; the deployment controller reports; and the user may do anything to the resource itself. */
  predicate Harmless(lim: Limitador, s: EnvStep) {
    match s
    case WriteObject(k, _) => k !in Children(lim)
    case ForeignUpdate(k, _, written, removed) =>
      forall a | a in SpecPlan(lim) && a.Enforce? && a.key == k :: (written.Keys + removed) !! a.fields.Keys
    case _ => true
  }

  /** Nobody else takes away from the children what the operator wants of them. */
  predicate ChildrenSpared(lim: Limitador, turns: seq<Turn>) {
    forall t | t in turns :: forall s | s in t.steps :: Harmless(lim, s)
  }

  /** The user neither edits nor deletes the resource. */
  predicate Unedited(turns: seq<Turn>) {
    forall t | t in turns :: forall s | s in t.steps :: !s.EditSpec? && !s.MarkDeleted? && !s.RemoveLimitador?
  }

  /** The object an action is about. */
  function ActionKey(a: Action): Option<Key> {
    match a
    case Enforce(k, _) => Some(k)
    case Discard(k) => Some(k)
    case Provide(k, _) => Some(k)
    case DemandURL(k) => Some(k)
    case Fail(_) => None
  }

  /** The action may change the object `k`. */
  predicate KeyOf(a: Action, k: Key) {
    ActionKey(a) == Some(k) && !a.DemandURL?
  }

  /** The object is as the action wants it. */
  predicate InPlace(o: Option<Object>, a: Action) {
    match a
    case Enforce(_, fields) => o.Some? && Matches(o.value.content, OPERATOR, fields)
    case Discard(_) => o.None?
    case Provide(_, _) => o.Some?
    case _ => true
  }

  /** What is wanted of the cluster: each child's action has nothing left to do. */
  predicate InSync(w: World, a: Action) {
    ActionKey(a).Some? ==> InPlace(Stored(w, ActionKey(a).value), a)
  }

  lemma MatchesIsLabelled(c: Content, m: Manager, fields: FieldMap)
    requires Matches(c, m, fields) && APP_LABEL in fields && fields[APP_LABEL] == APP_NAME
    ensures HasAppLabel(c)
  {
  }

  /** As `InSync`, but a claim that a lagging read showed need not be there any more. */
  predicate Reached(w: World, a: Action) {
    InSync(w, a) || (a.Provide? && w.lagging)
  }

  /** The resource is there, not being deleted, and asks for what `lim` asks for. */
  predicate Asks(r: Option<Resource>, lim: Limitador) {
    r.Some? && !r.value.lim.deleting && r.value.lim.spec == lim.spec
    && r.value.lim.namespace == lim.namespace && r.value.lim.name == lim.name
  }

  /** Whatever a read of the resource may still return asks for it. */
  ghost predicate Asked(w: World, lim: Limitador) {
    && 0 < ResourcePosition(w)
    && forall i | ResourcePosition(w) - 1 <= i < |w.resource| :: Asks(w.resource[i], lim)
  }

  /** With fresh reads it is enough that the stored resource asks for it. */
  lemma FreshIsAsked(w: World, lim: Limitador)
    requires !w.lagging
    ensures Asked(w, lim) <==> Asks(StoredResource(w), lim)
  {
  }

  /** From `w` to `x` no ground is lost, as far as the others do not take it in the turns that go by; and unless the
      user changes it, the resource goes on asking for what it asked for. */
  ghost predicate Upholds(w: World, x: World, lim: Limitador) {
    && Follows(w, x) && x.lagging == w.lagging
    && (ChildrenSpared(lim, Elapsed(w, x)) ==> forall a | a in SpecPlan(lim) :: InSync(w, a) ==> InSync(x, a))
    && (Unedited(Elapsed(w, x)) && Asked(w, lim) ==> Asked(x, lim))
  }

  lemma SplitTurns(w: World, x: World, y: World, lim: Limitador)
    requires Follows(w, x) && Follows(x, y)
    ensures Follows(w, y)
    ensures ChildrenSpared(lim, Elapsed(w, y)) <==>
      ChildrenSpared(lim, Elapsed(w, x)) && ChildrenSpared(lim, Elapsed(x, y))
    ensures Unedited(Elapsed(w, y)) <==> Unedited(Elapsed(w, x)) && Unedited(Elapsed(x, y))
  {
    hide Follows, Elapsed, Harmless;
    FollowsTransitive(w, x, y);
    var first, second := Elapsed(w, x), Elapsed(x, y);
    assert forall t :: t in first + second <==> t in first || t in second;
  }

  lemma UpholdsTransitive(w: World, x: World, y: World, lim: Limitador)
    requires Upholds(w, x, lim) && Upholds(x, y, lim)
    ensures Upholds(w, y, lim)
  {
    hide Asked, InSync, SpecPlan, ChildrenSpared, Unedited, Elapsed, Follows;
    SplitTurns(w, x, y, lim);
  }

  lemma PlanKeys(lim: Limitador)
    ensures forall a, k | a in SpecPlan(lim) && KeyOf(a, k) :: k in Children(lim) && k.kind != Pod && k.kind != Secret
  {
    hide SpecPlan;
    PlanContents(lim);
  }

  /** Changing one object, in a way that suits every planned action on it. */
  lemma ChangeUpholds(w: World, x: World, k: Key, lim: Limitador)
    requires forall j: Key | j != k :: Stored(x, j) == Stored(w, j)
    requires forall a | a in SpecPlan(lim) && KeyOf(a, k) && InSync(w, a) :: InSync(x, a)
    requires SameTurns(w, x)
    ensures Upholds(w, x, lim)
  {
    hide SpecPlan, Stored, Matches, ChildrenSpared, Asks;
    SameFollows(w, x);
    forall a | a in SpecPlan(lim) && InSync(w, a)
      ensures InSync(x, a)
    {
      if !KeyOf(a, k) && ActionKey(a).Some? && !a.DemandURL? {
        assert Stored(x, ActionKey(a).value) == Stored(w, ActionKey(a).value);
      }
    }
  }

  /** Nothing has come off the agenda, and the reads of the resource are the same. */
  predicate SameTurns(w: World, x: World) {
    x.lagging == w.lagging && x.agenda == w.agenda && x.resource == w.resource && x.resourceSeen == w.resourceSeen
  }

  lemma StoredAfterAppend(w: World, k: Key, o: Option<Object>)
    ensures Stored(Append(w, k, o), k) == o
    ensures forall j: Key | j != k :: Stored(Append(w, k, o), j) == Stored(w, j)
  {
    assert Versions(Append(w, k, o), k) == Versions(w, k) + [o];
    assert forall j: Key | j != k :: Versions(Append(w, k, o), j) == Versions(w, j);
  }

  lemma StoredAfterPut(w: World, k: Key, c: Content)
    ensures Stored(Put(w, k, c), k).Some? && Stored(Put(w, k, c), k).value.content == c
    ensures forall j: Key | j != k :: Stored(Put(w, k, c), j) == Stored(w, j)
    ensures Put(w, k, c).agenda == w.agenda && Put(w, k, c).lagging == w.lagging
    ensures Put(w, k, c).resource == w.resource && Put(w, k, c).roster == w.roster
    ensures Put(w, k, c).resourceSeen == w.resourceSeen
  {
    hide NextObject;
    NextVersion(w, k, c);
    StoredAfterAppend(w, k, Some(NextObject(w, k, c)));
  }

  lemma SameStoreUpholds(w: World, x: World, lim: Limitador)
    requires forall j: Key :: Stored(x, j) == Stored(w, j)
    requires x.agenda == w.agenda && x.lagging == w.lagging && (Asked(w, lim) ==> Asked(x, lim))
    ensures Upholds(w, x, lim)
  {
    hide SpecPlan, Stored, Asked, ChildrenSpared, Unedited, InPlace;
    SameFollows(w, x);
  }

  lemma SameUpholds(w: World, x: World, lim: Limitador)
    requires x.hist == w.hist && SameTurns(w, x)
    ensures Upholds(w, x, lim)
  {
    hide Asks, Upholds;
    assert forall j: Key :: Stored(x, j) == Stored(w, j);
    SameStoreUpholds(w, x, lim);
  }

  lemma DeliveryUpholds(w: World, lim: Limitador)
    ensures Upholds(w, EnvStepWorld(w, DeliverLimitador), lim)
  {
    hide Asked, Upholds, ResourcePosition;
    var x := EnvStepWorld(w, DeliverLimitador);
    assert forall j: Key :: Stored(x, j) == Stored(w, j);
    AskedDelivered(w, lim);
    SameStoreUpholds(w, x, lim);
  }

  lemma AskedDelivered(w: World, lim: Limitador)
    ensures Asked(w, lim) ==> Asked(EnvStepWorld(w, DeliverLimitador), lim)
  {
    hide Asks;
  }

  lemma ResourceUpholds(w: World, next: Option<Resource>, lim: Limitador)
    requires Asks(StoredResource(w), lim) ==> Asks(next, lim)
    ensures Upholds(w, PutResource(w, next), lim)
  {
    hide Asks, Asked, Upholds;
    var x := PutResource(w, next);
    assert forall j: Key :: Stored(x, j) == Stored(w, j);
    AskedAppended(w, next, lim);
    SameStoreUpholds(w, x, lim);
  }

  lemma AskedAppended(w: World, next: Option<Resource>, lim: Limitador)
    requires Asks(StoredResource(w), lim) ==> Asks(next, lim)
    ensures Asked(w, lim) ==> Asked(PutResource(w, next), lim)
  {
    hide Asks;
    var x := PutResource(w, next);
    if Asked(w, lim) {
      assert w.resource[|w.resource| - 1] == StoredResource(w);
      assert forall i | 0 <= i < |w.resource| :: x.resource[i] == w.resource[i];
    }
  }

  lemma PutElsewhereUpholds(w: World, k: Key, c: Content, lim: Limitador)
    requires k !in Children(lim)
    ensures Upholds(w, Put(w, k, c), lim)
  {
    hide SpecPlan, Put, Upholds, Children;
    StoredAfterPut(w, k, c);
    PlanKeys(lim);
    ChangeUpholds(w, Put(w, k, c), k, lim);
  }

  lemma AppendElsewhereUpholds(w: World, k: Key, o: Option<Object>, lim: Limitador)
    requires k !in Children(lim)
    ensures Upholds(w, Append(w, k, o), lim)
  {
    hide SpecPlan, Upholds, Children;
    StoredAfterAppend(w, k, o);
    PlanKeys(lim);
    ChangeUpholds(w, Append(w, k, o), k, lim);
  }

  lemma ForeignApplyUpholds(w: World, k: Key, m: Manager, fields: FieldMap, lim: Limitador)
    requires m != OPERATOR && Stored(w, k).Some?
    ensures Upholds(w, Put(w, k, TryApply(Stored(w, k).value.content, m, fields)), lim)
  {
    hide SpecPlan, Put, Upholds, TryApply, Matches;
    var c := Stored(w, k).value.content;
    var x := Put(w, k, TryApply(c, m, fields));
    StoredAfterPut(w, k, TryApply(c, m, fields));
    PlanContents(lim);
    forall a | a in SpecPlan(lim) && KeyOf(a, k) && InSync(w, a)
      ensures InSync(x, a)
    {
      if a.Enforce? {
        TryApplyKeepsMatch(c, OPERATOR, a.fields, m, fields);
      }
    }
    ChangeUpholds(w, x, k, lim);
  }

  lemma RolloutUpholds(w: World, k: Key, o: Object, lim: Limitador)
    requires Stored(w, k).Some? && o.content == Stored(w, k).value.content
    ensures Upholds(w, Append(w, k, Some(o)), lim)
  {
    hide SpecPlan, Upholds, Matches;
    StoredAfterAppend(w, k, Some(o));
    ChangeUpholds(w, Append(w, k, Some(o)), k, lim);
  }

  lemma ForeignUpdateUpholds(w: World, s: EnvStep, lim: Limitador)
    requires s.ForeignUpdate? && Harmless(lim, s) && s.manager != OPERATOR && Stored(w, s.key).Some?
    ensures Upholds(w, EnvStepWorld(w, s), lim)
  {
    hide SpecPlan, Put, Upholds, Update, Matches;
    var k, c := s.key, Stored(w, s.key).value.content;
    var after := Update(c, s.manager, s.written, s.removed);
    StoredAfterPut(w, k, after);
    forall a | a in SpecPlan(lim) && KeyOf(a, k) && InSync(w, a)
      ensures InSync(Put(w, k, after), a)
    {
      if a.Enforce? {
        UpdateKeepsMatch(c, OPERATOR, a.fields, s.manager, s.written, s.removed);
      }
    }
    ChangeUpholds(w, Put(w, k, after), k, lim);
  }

  /** What a step keeps: the children when it is harmless, the resource's asking when it is no edit of the user. */
  ghost predicate StepUpholds(w: World, x: World, s: EnvStep, lim: Limitador) {
    && x.agenda == w.agenda && x.lagging == w.lagging
    && (Harmless(lim, s) ==> forall a | a in SpecPlan(lim) :: InSync(w, a) ==> InSync(x, a))
    && (!s.EditSpec? && !s.MarkDeleted? && !s.RemoveLimitador? && Asked(w, lim) ==> Asked(x, lim))
  }

  lemma UpholdsStep(w: World, x: World, s: EnvStep, lim: Limitador)
    requires Upholds(w, x, lim) && x.agenda == w.agenda
    ensures StepUpholds(w, x, s, lim)
  {
    hide SpecPlan, Asked, InSync, Harmless;
    SameFollows(w, x);
  }

  /** A step that does not touch the objects. */
  lemma OnlyResource(w: World, s: EnvStep, lim: Limitador)
    requires s.EditSpec? || s.MarkDeleted? || s.RemoveLimitador?
    ensures StepUpholds(w, EnvStepWorld(w, s), s, lim)
  {
    hide SpecPlan, Asked, EnvResource;
    var x := EnvStepWorld(w, s);
    assert forall j: Key :: Stored(x, j) == Stored(w, j);
  }

  lemma EnvStepUpholds(w: World, s: EnvStep, lim: Limitador)
    ensures StepUpholds(w, EnvStepWorld(w, s), s, lim)
  {
    hide SpecPlan, Put, Append, Upholds, Children, TryApply, Update, PutResource, StepUpholds, Asked;
    EnvStepAgenda(w, s);
    if s.EditSpec? || s.MarkDeleted? || s.RemoveLimitador? {
      OnlyResource(w, s, lim);
    } else if Harmless(lim, s) {
      HarmlessUpholds(w, s, lim);
      UpholdsStep(w, EnvStepWorld(w, s), s, lim);
    } else {
      OnlyObjects(w, s, lim);
    }
  }

  /** A step that does not touch the resource. */
  lemma OnlyObjects(w: World, s: EnvStep, lim: Limitador)
    requires s.WriteObject? || s.ForeignUpdate?
    requires !Harmless(lim, s)
    ensures StepUpholds(w, EnvStepWorld(w, s), s, lim)
  {
    hide SpecPlan, Update, NextObject, Harmless, Asks;
  }

  lemma HarmlessUpholds(w: World, s: EnvStep, lim: Limitador)
    requires Harmless(lim, s) && !s.EditSpec? && !s.MarkDeleted? && !s.RemoveLimitador?
    ensures Upholds(w, EnvStepWorld(w, s), lim)
  {
    hide SpecPlan, Put, Append, Upholds, Children, TryApply, Update, PutResource;
    SameUpholds(w, w, lim);
    match s
    case WriteObject(k, None) => AppendElsewhereUpholds(w, k, None, lim);
    case WriteObject(k, Some(c)) =>
      var x := Put(w, k, c);
      PutElsewhereUpholds(w, k, c, lim);
      SameUpholds(x, Enroll(x, k), lim);
      UpholdsTransitive(w, x, Enroll(x, k), lim);
    case ForeignApply(k, m, fields) =>
      if m != OPERATOR && Stored(w, k).Some? {
        ForeignApplyUpholds(w, k, m, fields, lim);
      }
    case ForeignUpdate(k, m, written, removed) =>
      if m != OPERATOR && Stored(w, k).Some? {
        ForeignUpdateUpholds(w, s, lim);
      }
    case Rollout(k, status) =>
      if Stored(w, k).Some? {
        RolloutUpholds(w, k, Stored(w, k).value.(version := w.clock + 1, status := status), lim);
      }
    case SetForeignCondition(c) =>
      if StoredResource(w).Some? {
        ResourceUpholds(w, EnvResource(StoredResource(w).value, s), lim);
      }
    case Deliver(_) => SameUpholds(w, EnvStepWorld(w, s), lim);
    case DeliverLimitador => DeliveryUpholds(w, lim);
    case Tick => SameUpholds(w, EnvStepWorld(w, s), lim);
  }

  lemma {:induction false} EnvStepsUphold(w: World, steps: seq<EnvStep>, lim: Limitador)
    ensures var x := EnvSteps(w, steps);
      && x.agenda == w.agenda && x.lagging == w.lagging
      && ((forall s | s in steps :: Harmless(lim, s)) ==>
            forall a | a in SpecPlan(lim) :: InSync(w, a) ==> InSync(x, a))
      && ((forall s | s in steps :: !s.EditSpec? && !s.MarkDeleted? && !s.RemoveLimitador?) && Asked(w, lim) ==>
            Asked(x, lim))
    decreases |steps|
  {
    hide EnvStepWorld, Harmless, InSync, SpecPlan, Asked;
    if steps != [] {
      var x := EnvStepWorld(w, steps[0]);
      EnvStepUpholds(w, steps[0], lim);
      EnvStepsUphold(x, steps[1..], lim);
    }
  }

  lemma BeforeUpholds(w: World, lim: Limitador)
    ensures Upholds(w, Before(w), lim)
  {
    hide EnvSteps, Harmless, InSync, SpecPlan, Asked;
    if w.agenda == [] {
      SameUpholds(w, w, lim);
    } else {
      var x, steps := w.(agenda := w.agenda[1..]), w.agenda[0].steps;
      BeforeFollows(w);
      PopUpholds(w, lim);
      EnvStepsUphold(x, steps, lim);
      assert w.agenda[0] in Elapsed(w, Before(w));
    }
  }

  lemma PopUpholds(w: World, lim: Limitador)
    requires w.agenda != []
    ensures var x := w.(agenda := w.agenda[1..]);
      && (forall a | a in SpecPlan(lim) :: InSync(w, a) ==> InSync(x, a))
      && (Asked(w, lim) ==> Asked(x, lim))
  {
    hide SpecPlan, Asks;
    var x := w.(agenda := w.agenda[1..]);
    assert forall j: Key :: Stored(x, j) == Stored(w, j);
  }

  // ---------- the operator's actions ----------

  lemma NoteUpholds(w: World, e: Event, lim: Limitador)
    ensures Upholds(w, Note(w, e), lim)
  {
    hide Upholds;
    SameUpholds(w, Note(w, e), lim);
  }

  /** No two planned actions concern the same object. */
  lemma PlanDistinct(lim: Limitador)
    ensures forall a, b, k | a in SpecPlan(lim) && b in SpecPlan(lim) && KeyOf(a, k) && KeyOf(b, k) :: a == b
  {
    hide ServiceManifest, PvcManifest, DeploymentManifest, ConfigMapManifest, PdbManifest, ActionFor, ClaimActionFor;
    hide SpecPlan;
    var service, claim := ActionFor(ServiceManifest(lim)), ClaimActionFor(PvcManifest(lim));
    var deployment, limits, pdb :=
      ActionFor(DeploymentManifest(lim)), ActionFor(ConfigMapManifest(lim)), ActionFor(PdbManifest(lim));
    ManifestKeys(lim);
    WritingActions(lim);
    AboutItsKey(ServiceManifest(lim));
    AboutItsKey(PvcManifest(lim));
    AboutItsKey(DeploymentManifest(lim));
    AboutItsKey(ConfigMapManifest(lim));
    AboutItsKey(PdbManifest(lim));
    forall a, k | a in SpecPlan(lim) && KeyOf(a, k)
      ensures a == match k.kind case Service => service case PersistentVolumeClaim => claim
                                case Deployment => deployment case ConfigMap => limits case _ => pdb
    {
    }
  }

  lemma AboutItsKey(m: Manifest)
    ensures forall k | KeyOf(ActionFor(m), k) || KeyOf(ClaimActionFor(m), k) :: k == m.key
  {
    hide IsTagged, Manifest.Desired;
  }

  lemma WritingActions(lim: Limitador)
    ensures forall a, k | a in SpecPlan(lim) && KeyOf(a, k) ::
      a in {ActionFor(ServiceManifest(lim)), ClaimActionFor(PvcManifest(lim)), ActionFor(DeploymentManifest(lim)),
            ActionFor(ConfigMapManifest(lim)), ActionFor(PdbManifest(lim))}
  {
    hide ServiceManifest, PvcManifest, DeploymentManifest, ConfigMapManifest, PdbManifest, ActionFor, ClaimActionFor;
  }

  /** Serving a planned action puts its object in sync and keeps the others. */
  lemma PlannedUpholds(w: World, x: World, a: Action, k: Key, lim: Limitador)
    requires a in SpecPlan(lim) && KeyOf(a, k) && InSync(x, a)
    requires forall j: Key | j != k :: Stored(x, j) == Stored(w, j)
    requires SameTurns(w, x)
    ensures Upholds(w, x, lim)
  {
    hide SpecPlan, Upholds, InSync;
    PlanDistinct(lim);
    ChangeUpholds(w, x, k, lim);
  }

  lemma ServeApplyUpholds(w: World, k: Key, fields: FieldMap, lim: Limitador)
    requires Enforce(k, fields) in SpecPlan(lim)
    ensures var done := ServeApply(w, k, fields);
      Upholds(w, done.0, lim) && InSync(done.0, Enforce(k, fields)) && done.1.None?
  {
    hide SpecPlan, Upholds, Put, Apply, Matches, PlannedFor, Children;
    var a := Enforce(k, fields);
    PlanKeys(lim);
    PlanContents(lim);
    assert KeyOf(a, k) && PlannedFor(lim, a);
    PlannedNoRoot(lim, k, fields);
    var c := Apply(StoredContent(w, k), OPERATOR, fields);
    StoredAfterPut(w, k, c);
    ApplyAchieves(StoredContent(w, k), OPERATOR, fields);
    var x := Put(w, k, c);
    PlannedUpholds(w, x, a, k, lim);
    NoteUpholds(x, AppliedObject(k, fields), lim);
    UpholdsTransitive(w, x, Note(x, AppliedObject(k, fields)), lim);
    assert Stored(Note(x, AppliedObject(k, fields)), k) == Stored(x, k);
  }

  lemma PlannedNoRoot(lim: Limitador, k: Key, fields: FieldMap)
    requires PlannedFor(lim, Enforce(k, fields))
    ensures NoRoot(fields)
  {
  }

  lemma ServeDeleteUpholds(w: World, k: Key, lim: Limitador)
    requires Discard(k) in SpecPlan(lim)
    ensures var done := ServeDelete(w, k);
      Upholds(w, done.0, lim) && InSync(done.0, Discard(k)) && (done.1.Some? ==> done.1.value.NotFound?)
  {
    hide SpecPlan, Upholds;
    SameUpholds(w, w, lim);
    if Stored(w, k).Some? {
      StoredAfterAppend(w, k, None);
      var x := Append(w, k, None);
      assert KeyOf(Discard(k), k);
      PlannedUpholds(w, x, Discard(k), k, lim);
      NoteUpholds(x, DeletedObject(k), lim);
      UpholdsTransitive(w, x, Note(x, DeletedObject(k)), lim);
      assert Stored(Note(x, DeletedObject(k)), k) == Stored(x, k);
    }
  }

  lemma ServeCreateUpholds(w: World, k: Key, fields: FieldMap, lim: Limitador)
    requires Provide(k, fields) in SpecPlan(lim)
    ensures var done := ServeCreate(w, k, fields); Upholds(w, done.0, lim) && InSync(done.0, Provide(k, fields))
  {
    hide SpecPlan, Upholds, Put;
    SameUpholds(w, w, lim);
    if Stored(w, k).None? {
      var c := Content(fields, map[CREATOR := fields.Keys]);
      StoredAfterPut(w, k, c);
      var x := Put(w, k, c);
      assert KeyOf(Provide(k, fields), k);
      PlannedUpholds(w, x, Provide(k, fields), k, lim);
      NoteUpholds(x, CreatedObject(k, fields), lim);
      UpholdsTransitive(w, x, Note(x, CreatedObject(k, fields)), lim);
      assert Stored(Note(x, CreatedObject(k, fields)), k) == Stored(x, k);
    }
  }

  /** A call, faulty or not, upholds what its service upholds; when it reports success it has been served. */
  lemma FaultyUpholds(w: World, done: (World, Option<Error>), lim: Limitador)
    requires Upholds(Before(w), done.0, lim)
    ensures Upholds(w, Faulty(w, done).0, lim)
    ensures Faulty(w, done).1.None? ==> Faulty(w, done) == done
  {
    hide Upholds, Before;
    BeforeUpholds(w, lim);
    UpholdsTransitive(w, Before(w), done.0, lim);
  }

  lemma FreshGet(w: World, k: Key)
    requires Get(w, k).1.Ok? && !Get(w, k).0.lagging && k.kind != Secret
    ensures Stored(Get(w, k).0, k).Some?
  {
    hide Before;
    var x := Before(w);
    assert Versions(x, k)[..|Versions(x, k)|] == Versions(x, k);
  }

  /** Every planned action upholds; when it succeeds, its object is in sync. */
  lemma PerformUpholds(w: World, a: Action, lim: Limitador)
    requires a in SpecPlan(lim)
    ensures var done := Perform(w, a);
      Upholds(w, done.0, lim) && (done.1.None? ==> Reached(done.0, a))
  {
    hide SpecPlan, Upholds, Before, Faulty, ServeApply, ServeCreate, ServeDelete, InSync, Get;
    BeforeUpholds(w, lim);
    match a
    case Enforce(k, fields) =>
      ServeApplyUpholds(Before(w), k, fields, lim);
      FaultyUpholds(w, ServeApply(Before(w), k, fields), lim);
    case Discard(k) =>
      ServeDeleteUpholds(Before(w), k, lim);
      FaultyUpholds(w, ServeDelete(Before(w), k), lim);
      FaultyNotFound(w, ServeDelete(Before(w), k));
    case Provide(k, fields) =>
      GetIsBefore(w, k);
      var x := Before(w);
      ServeCreateUpholds(Before(x), k, fields, lim);
      FaultyUpholds(x, ServeCreate(Before(x), k, fields), lim);
      UpholdsTransitive(w, x, Faulty(x, ServeCreate(Before(x), k, fields)).0, lim);
      if Get(w, k).1.Ok? && !x.lagging {
        PlanKeys(lim);
        assert KeyOf(a, k);
        FreshGet(w, k);
        ProvidedInSync(x, k, fields);
      }
    case DemandURL(k) =>
      GetIsBefore(w, k);
      TrivialInSync(Before(w), a);
    case Fail(_) =>
      SameUpholds(w, w, lim);
  }

  lemma FaultyNotFound(w: World, done: (World, Option<Error>))
    ensures Faulty(w, done).1.Some? && Faulty(w, done).1.value.NotFound? ==> Faulty(w, done) == done
  {
    hide Before;
  }

  lemma GetIsBefore(w: World, k: Key)
    ensures Get(w, k).0 == Before(w)
  {
    hide Before;
  }

  lemma UpholdsReached(w: World, x: World, lim: Limitador)
    requires Upholds(w, x, lim) && ChildrenSpared(lim, Elapsed(w, x))
    ensures forall a | a in SpecPlan(lim) && Reached(w, a) :: Reached(x, a)
  {
    hide SpecPlan, InSync, ChildrenSpared;
  }

  lemma ProvidedInSync(x: World, k: Key, fields: FieldMap)
    requires Stored(x, k).Some?
    ensures InSync(x, Provide(k, fields))
  {
  }

  lemma TrivialInSync(x: World, a: Action)
    requires a.DemandURL? || a.Fail?
    ensures InSync(x, a)
  {
  }

  /** A stretch of the plan: nothing is lost, and if it ends without error everything in it is reached. */
  lemma {:induction false} ExecUpholds(w: World, plan: seq<Action>, lim: Limitador)
    requires forall a | a in plan :: a in SpecPlan(lim)
    ensures var done := Exec(w, plan);
      && Upholds(w, done.0, lim)
      && (done.1.None? && ChildrenSpared(lim, Elapsed(w, done.0)) ==> forall a | a in plan :: Reached(done.0, a))
    decreases |plan|
  {
    hide SpecPlan, Perform, Reached, Upholds, ChildrenSpared, Elapsed;
    if plan == [] {
      SameUpholds(w, w, lim);
    } else {
      var done := Perform(w, plan[0]);
      PerformUpholds(w, plan[0], lim);
      ExecUpholds(done.0, plan[1..], lim);
      if done.1.None? {
        var x := Exec(done.0, plan[1..]).0;
        UpholdsTransitive(w, done.0, x, lim);
        LaterSpared(w, done.0, x, lim);
        if ChildrenSpared(lim, Elapsed(w, x)) {
          UpholdsReached(done.0, x, lim);
          assert forall a | a in plan :: a == plan[0] || a in plan[1..];
        }
      }
    }
  }

  lemma LaterSpared(w: World, x: World, y: World, lim: Limitador)
    requires Upholds(w, x, lim) && Upholds(x, y, lim)
    ensures ChildrenSpared(lim, Elapsed(w, y)) <==>
      ChildrenSpared(lim, Elapsed(w, x)) && ChildrenSpared(lim, Elapsed(x, y))
  {
    hide SpecPlan, InSync, ChildrenSpared, Elapsed, Asked, Follows;
    SplitTurns(w, x, y, lim);
  }

  // ---------- pods and status do not disturb the children ----------

  lemma PodPatchUpholds(w: World, k: Key, version: nat, lim: Limitador)
    requires k.kind == Pod
    ensures Upholds(w, Perform(w, ActionFor(PodPatch(k, version))).0, lim)
  {
    hide SpecPlan, Upholds, Before, Faulty, Put, Apply, ActionFor, PodPatch;
    PodPatchAction(k, version);
    var fields: FieldMap := map[LIMITS_VERSION_ANNOTATION := Version(version)];
    var x := Before(w);
    var c := Apply(StoredContent(x, k), OPERATOR, fields);
    var y := Put(x, k, c);
    SameUpholds(x, x, lim);
    PutElsewhereUpholds(x, k, c, lim);
    NoteUpholds(y, AppliedObject(k, fields), lim);
    UpholdsTransitive(x, y, Note(y, AppliedObject(k, fields)), lim);
    FaultyUpholds(w, ServeApply(x, k, fields), lim);
  }

  lemma {:induction false} PodExecUpholds(w: World, pods: seq<ListedPod>, version: nat, lim: Limitador)
    requires forall p | p in pods :: p.key.kind == Pod
    ensures Upholds(w, Exec(w, PodPlan(pods, version)).0, lim)
    decreases |pods|
  {
    hide Perform, Upholds, ActionFor, PodPatch, OutOfDate;
    if pods == [] {
      SameUpholds(w, w, lim);
    } else {
      var rest := PodPlan(pods[1..], version);
      if OutOfDate(pods[0], version) {
        var patch := ActionFor(PodPatch(pods[0].key, version));
        var done := Perform(w, patch);
        assert PodPlan(pods, version)[0] == patch && PodPlan(pods, version)[1..] == rest;
        PodPatchUpholds(w, pods[0].key, version, lim);
        PodExecUpholds(done.0, pods[1..], version, lim);
        UpholdsTransitive(w, done.0, Exec(done.0, rest).0, lim);
      } else {
        assert PodPlan(pods, version) == rest;
        PodExecUpholds(w, pods[1..], version, lim);
      }
    }
  }

  lemma AnnotateUpholds(w: World, read: Limitador, lim: Limitador)
    ensures Upholds(w, AnnotatePods(w, read).world, lim)
  {
    hide Upholds, Before, Exec, SelectorLabels, PodPlan, View;
    var x := Before(w);
    BeforeUpholds(w, lim);
    var listed := ListPods(w, read.namespace, SelectorLabels(LABELS, read));
    if listed.1.Ok? && listed.1.value != [] && !ReplicasMismatch(read, |listed.1.value|) {
      ListedAreSelected(x, x.roster, read.namespace, SelectorLabels(LABELS, read));
      var y := Before(x);
      BeforeUpholds(x, lim);
      UpholdsTransitive(w, x, y, lim);
      var got := Get(x, ConfigMapKey(read));
      if got.1.Ok? {
        var version := got.1.value.version;
        PodExecUpholds(y, listed.1.value, version, lim);
        UpholdsTransitive(w, y, Exec(y, PodPlan(listed.1.value, version)).0, lim);
      }
    }
  }

  lemma MergeAsks(r: Resource, status: LimitadorStatus, lim: Limitador)
    requires Asks(Some(r), lim)
    ensures Asks(Some(MergeStatus(r, status)), lim)
  {
  }

  lemma PatchStatusUpholds(w: World, status: LimitadorStatus, at: nat, lim: Limitador)
    ensures Upholds(w, PatchStatus(w, status, at).0, lim)
  {
    hide Upholds, Before, MergeStatus, PutResource, Asks, Note;
    var x := Before(w);
    SameUpholds(x, x, lim);
    if StoredResource(x).Some? {
      var r := StoredResource(x).value;
      if Asks(Some(r), lim) {
        MergeAsks(r, status, lim);
      }
      ResourceUpholds(x, Some(MergeStatus(r, status)), lim);
      var y := PutResource(x, Some(MergeStatus(r, status)));
      NoteUpholds(y, WroteStatus(status, at), lim);
      UpholdsTransitive(x, y, Note(y, WroteStatus(status, at)), lim);
    }
    FaultyUpholds(w, ServeStatus(x, status, at), lim);
  }

  lemma StatusEffectUpholds(w: World, read: Limitador, specErr: Option<Error>, lim: Limitador)
    ensures Upholds(w, StatusEffect(w, read, specErr).0, lim)
  {
    hide Upholds, Before, View, PatchStatus, NewStatus, Steady, Note;
    SameUpholds(w, w, lim);
    BeforeUpholds(w, lim);
    var x := Before(w);
    var got := Get(w, DeploymentKey(read)).1;
    var e := CheckedDeployment(if got.Ok? then Some(got.value) else None);
    NoteUpholds(x, e, lim);
    UpholdsTransitive(w, x, Note(x, e), lim);
    var ready := ReadyCondition(w, read, specErr);
    if ready.1.Ok? {
      var status := NewStatus(read, ready.1.value, ready.0.now);
      PatchStatusUpholds(ready.0, status, ready.0.now, lim);
      UpholdsTransitive(w, ready.0, PatchStatus(ready.0, status, ready.0.now).0, lim);
    }
  }

  // ---------- the resource is read as it asks ----------

  /** The plan depends on the identity and the spec only. */
  lemma SamePlan(a: Limitador, b: Limitador)
    requires a.namespace == b.namespace && a.name == b.name && a.spec == b.spec
    ensures SpecPlan(a) == SpecPlan(b)
  {
    hide ActionFor, ClaimActionFor;
    SameDeployment(a, b);
    SameOthers(a, b);
  }

  lemma SameDeployment(a: Limitador, b: Limitador)
    requires a.namespace == b.namespace && a.name == b.name && a.spec == b.spec
    ensures DeploymentManifest(a) == DeploymentManifest(b)
  {
    hide OptionsOf, TemplateFields, ContainerFields, StrategyFields, CommonFields, K8sObjects.Labels, SelectorLabels;
    SameOptions(a, b);
    SameLabels(a, b, At(SPEC, Selector));
    SameContainer(a, b, ImageOf(a), OptionsOf(a));
    SameTemplate(a, b, OptionsOf(a));
  }

  lemma SameLabels(a: Limitador, b: Limitador, parent: Path)
    requires a.name == b.name
    ensures K8sObjects.Labels(parent, a) == K8sObjects.Labels(parent, b)
    ensures SelectorLabels(parent, a) == SelectorLabels(parent, b) && CommonFields(a) == CommonFields(b)
  {
  }

  lemma SameContainer(a: Limitador, b: Limitador, image: string, o: DeploymentOptions)
    requires a.spec == b.spec
    ensures ContainerFields(a, image, o) == ContainerFields(b, image, o)
  {
    hide EnvFields, MountFields;
    assert ContainerBase(a, image, o.args) == ContainerBase(b, image, o.args);
  }

  lemma SameTemplate(a: Limitador, b: Limitador, o: DeploymentOptions)
    requires a.name == b.name && a.spec == b.spec
    ensures TemplateFields(a, o) == TemplateFields(b, o)
  {
    hide VolumeFields, OptionalField, K8sObjects.Labels;
    SameLabels(a, b, At(TEMPLATE, Segment.Labels));
  }

  lemma SameOptions(a: Limitador, b: Limitador)
    requires a.namespace == b.namespace && a.name == b.name && a.spec == b.spec
    ensures OptionsOf(a) == OptionsOf(b)
  {
    hide PrintFlags, PrintStorage;
    assert InvocationOf(a) == InvocationOf(b);
  }

  lemma SameOthers(a: Limitador, b: Limitador)
    requires a.namespace == b.namespace && a.name == b.name && a.spec == b.spec
    ensures ServiceManifest(a) == ServiceManifest(b) && PvcManifest(a) == PvcManifest(b)
    ensures ConfigMapManifest(a) == ConfigMapManifest(b) && PdbManifest(a) == PdbManifest(b)
    ensures StorageCheck(a) == StorageCheck(b)
  {
    hide Tagged, ClaimFields, OptionalField;
    assert CommonFields(a) == CommonFields(b);
    assert ServicePorts(a) == ServicePorts(b);
    assert SelectorLabels(At(SPEC, Selector), a) == SelectorLabels(At(SPEC, Selector), b);
  }

  lemma ReadAsks(w: World, lim: Limitador)
    requires Asked(w, lim) && Unedited(Elapsed(w, GetLimitador(w).0))
    ensures var got := GetLimitador(w);
      && Asked(got.0, lim)
      && (got.1.Ok? ==> Asks(ViewResource(got.0), lim) && got.1.value == ViewResource(got.0).value.lim)
      && (got.1.Err? ==> got.1.error.Failed?)
  {
    hide Before, Asks, Unedited;
    var x := Before(w);
    BeforeUpholds(w, lim);
    AskedStays(w, x, lim);
    var p := ResourcePosition(x);
    assert x.resource[..p][p - 1] == x.resource[p - 1];
    AsksSome(ViewResource(x), lim);
  }

  lemma AskedStays(w: World, x: World, lim: Limitador)
    requires Upholds(w, x, lim) && Asked(w, lim) && Unedited(Elapsed(w, x))
    ensures Asked(x, lim)
  {
    hide SpecPlan, InSync, Asked;
  }

  lemma AsksSome(r: Option<Resource>, lim: Limitador)
    requires Asks(r, lim)
    ensures r.Some? && !r.value.lim.deleting && r.value.lim.spec == lim.spec
         && r.value.lim.namespace == lim.namespace && r.value.lim.name == lim.name
  {
  }

  // ---------- the theorem ----------

  /** A whole spec pass, which never looks at the resource again: nothing is lost, and if its plan ended without error
      every child is reached. */
  lemma SpecEffectUpholds(w: World, read: Limitador, lim: Limitador)
    requires read.namespace == lim.namespace && read.name == lim.name && read.spec == lim.spec
    ensures var x := SpecEffect(w, read);
      && Upholds(w, x.world, lim)
      && (Exec(w, SpecPlan(lim)).1.None? && ChildrenSpared(lim, Elapsed(w, x.world)) ==>
            forall a | a in SpecPlan(lim) :: Reached(x.world, a))
  {
    hide SpecPlan, Exec, AnnotatePods, Reached, Upholds, ChildrenSpared, Elapsed;
    SamePlan(read, lim);
    var done := Exec(w, SpecPlan(read));
    ExecUpholds(w, SpecPlan(lim), lim);
    AnnotateUpholds(done.0, read, lim);
    var pods := AnnotatePods(done.0, read);
    var noted := Note(pods.world, SpecCompleted(read.generation));
    NoteUpholds(pods.world, SpecCompleted(read.generation), lim);
    UpholdsTransitive(done.0, pods.world, noted, lim);
    UpholdsTransitive(w, done.0, pods.world, lim);
    UpholdsTransitive(w, done.0, noted, lim);
    if done.1.None? {
      var x := SpecEffect(w, read).world;
      LaterSpared(w, done.0, x, lim);
      if ChildrenSpared(lim, Elapsed(w, x)) {
        UpholdsReached(done.0, x, lim);
      }
    }
  }

  /** The spec pass and the status step of a resource that was read. */
  lemma ResourceEffectUpholds(w: World, read: Limitador, lim: Limitador)
    requires read.namespace == lim.namespace && read.name == lim.name && read.spec == lim.spec
    ensures var out := ResourceEffect(w, read);
      && Upholds(w, out.world, lim)
      && (out.error.None? && ChildrenSpared(lim, Elapsed(w, out.world)) ==>
            forall a | a in SpecPlan(lim) :: Reached(out.world, a))
  {
    hide SpecEffect, StatusEffect, SpecPlan, Reached, Upholds, ChildrenSpared, Elapsed;
    var x := SpecEffect(w, read);
    SpecEffectUpholds(w, read, lim);
    SpecErrorFromExec(w, read, lim);
    StatusEffectUpholds(x.world, read, x.error, lim);
    var y := StatusEffect(x.world, read, x.error).0;
    UpholdsTransitive(w, x.world, y, lim);
    LaterSpared(w, x.world, y, lim);
    if x.error.None? && ChildrenSpared(lim, Elapsed(w, y)) {
      UpholdsReached(x.world, y, lim);
    }
  }

  lemma UpholdsFollows(w: World, x: World, lim: Limitador)
    requires Upholds(w, x, lim)
    ensures Follows(w, x) && x.lagging == w.lagging
  {
    hide SpecPlan, InSync, Asked;
  }

  /** Whatever a reconcile reads, it takes its turns from the front of the agenda. */
  lemma ReconcileFollows(w: World)
    ensures var got := GetLimitador(w); var x := ReconcileEffect(w).world;
      && Follows(w, got.0) && Follows(got.0, x) && Follows(w, x) && x.lagging == w.lagging
  {
    hide Before, ResourceEffect, Follows, Elapsed, Upholds;
    BeforeFollows(w);
    var got := GetLimitador(w);
    SameFollows(got.0, got.0);
    BeforePasses(w);
    PassesSameLag(w, got.0);
    if got.1.Ok? {
      ResourceEffectUpholds(got.0, got.1.value, got.1.value);
      UpholdsFollows(got.0, ResourceEffect(got.0, got.1.value).world, got.1.value);
    }
    FollowsTransitive(w, got.0, ReconcileEffect(w).world);
  }

  lemma PassesSameLag(w: World, x: World)
    requires Passes(w, x)
    ensures x.lagging == w.lagging
  {
  }

  lemma {:induction false} RunFollows(w: World, n: nat)
    ensures Follows(w, Run(w, n)) && Run(w, n).lagging == w.lagging
  {
    hide ReconcileEffect, Follows, Elapsed;
    if n == 0 {
      SameFollows(w, w);
    } else {
      RunFollows(w, n - 1);
      ReconcileFollows(Run(w, n - 1));
      FollowsTransitive(w, Run(w, n - 1), Run(w, n));
    }
  }

  /** One reconcile, failing or not, loses no ground; one without error reaches every child. The user must not edit the
      resource before it is read, and for what is said afterwards, not during the rest of it either. */
  lemma ReconcileConverges(w: World, lim: Limitador)
    requires Asked(w, lim) && Unedited(Elapsed(w, ReconcileEffect(w).world))
    ensures var out := ReconcileEffect(w);
      && Upholds(w, out.world, lim)
      && (out.error.None? && ChildrenSpared(lim, Elapsed(w, out.world)) ==>
            forall a | a in SpecPlan(lim) :: Reached(out.world, a))
  {
    hide GetLimitador, ResourceEffect, Asked, SpecPlan, Reached, Asks, Upholds, ChildrenSpared, Unedited, Elapsed;
    var got, x := GetLimitador(w), ReconcileEffect(w).world;
    ReconcileFollows(w);
    SplitTurns(w, got.0, x, lim);
    ReadAsks(w, lim);
    ReadUpholds(w, lim);
    if got.1.Ok? {
      var read := got.1.value;
      AsksSome(ViewResource(got.0), lim);
      ResourceEffectUpholds(got.0, read, lim);
      UpholdsTransitive(w, got.0, x, lim);
    }
  }

  lemma ReadUpholds(w: World, lim: Limitador)
    ensures Upholds(w, GetLimitador(w).0, lim)
  {
    hide Before, Upholds;
    BeforeUpholds(w, lim);
  }

  lemma SpecErrorFromExec(w: World, read: Limitador, lim: Limitador)
    requires read.namespace == lim.namespace && read.name == lim.name && read.spec == lim.spec
    ensures SpecEffect(w, read).error.None? ==> Exec(w, SpecPlan(lim)).1.None?
  {
    hide SpecPlan, Exec, AnnotatePods;
    SamePlan(read, lim);
  }

  /** Any number of reconciles, whatever fails in them and however the cache lags on the children, while the user leaves
      the resource alone and the others leave alone what the operator wants of the children: those already in sync stay
      in sync, and once one of the reconciles had no error they all are, from then on; the claim, whose step trusts a
      read, is among them when reads are fresh. */
  lemma Converges(w: World, n: nat, lim: Limitador)
    requires Asked(w, lim) && Unedited(Elapsed(w, Run(w, n))) && ChildrenSpared(lim, Elapsed(w, Run(w, n)))
    ensures forall a | a in SpecPlan(lim) && InSync(w, a) :: InSync(Run(w, n), a)
    ensures forall m: nat | m < n && ReconcileEffect(Run(w, m)).error.None? ::
      forall a | a in SpecPlan(lim) && (a.Provide? ==> !w.lagging) :: InSync(Run(w, n), a)
  {
    hide Asked, SpecPlan, ReconcileEffect, InSync, ChildrenSpared, Unedited, Elapsed, Follows;
    RunReaches(w, n, lim);
    RunFollows(w, n);
  }

  /** With fresh reads it is enough to look at the stored resource, and the claim is no exception. */
  lemma FreshConverges(w: World, n: nat, lim: Limitador)
    requires !w.lagging && Asks(StoredResource(w), lim)
    requires Unedited(Elapsed(w, Run(w, n))) && ChildrenSpared(lim, Elapsed(w, Run(w, n)))
    ensures forall m: nat | m < n && ReconcileEffect(Run(w, m)).error.None? ::
      forall a | a in SpecPlan(lim) :: InSync(Run(w, n), a)
  {
    hide Asked, Asks, SpecPlan, Run, ReconcileEffect, InSync, ChildrenSpared, Unedited, Elapsed;
    FreshIsAsked(w, lim);
    Converges(w, n, lim);
  }

  lemma {:induction false} RunReaches(w: World, n: nat, lim: Limitador)
    requires Asked(w, lim) && Unedited(Elapsed(w, Run(w, n))) && ChildrenSpared(lim, Elapsed(w, Run(w, n)))
    ensures Upholds(w, Run(w, n), lim)
    ensures forall m: nat | m < n && ReconcileEffect(Run(w, m)).error.None? ::
      forall a | a in SpecPlan(lim) :: Reached(Run(w, n), a)
  {
    hide Asked, SpecPlan, Reached, Upholds, ReconcileEffect, ChildrenSpared, Unedited, Elapsed, Follows;
    if n == 0 {
      SameUpholds(w, w, lim);
    } else {
      var x, y := Run(w, n - 1), Run(w, n);
      RunFollows(w, n - 1);
      ReconcileFollows(x);
      SplitTurns(w, x, y, lim);
      RunReaches(w, n - 1, lim);
      AskedStays(w, x, lim);
      ReconcileConverges(x, lim);
      UpholdsTransitive(w, x, y, lim);
      UpholdsReached(x, y, lim);
    }
  }
}
