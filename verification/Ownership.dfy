/** What last-desired-wins means for the two objects whose fields exclude each other. */
module Ownership {
  import opened Wrappers
  import opened Fields
  import opened Objects
  import opened LimitadorTypes
  import opened K8sObjects
  import opened Cluster
  import opened Consistency

  /** Nothing in `fields` is at or below `p`. */
  ghost predicate Clear(fields: FieldMap, p: Path) {
    !Spans(fields.Keys, p)
  }

  lemma ClearWith(a: FieldMap, b: FieldMap, p: Path)
    requires Clear(a, p) && Clear(b, p)
    ensures Clear(a + b, p)
  {
  }

  /** Fields directly below a parent whose own lineage misses `p`, and none of which is `p`. */
  lemma ClearBelow(fields: FieldMap, parents: set<Path>, p: Path)
    requires forall q | q in fields :: q.At? && q.parent in parents && q != p
    requires forall r | r in parents :: p !in Lineage(r)
    ensures Clear(fields, p)
  {
  }

  lemma KnownLineages()
    ensures Lineage(SPEC) == {SPEC} && Lineage(METADATA) == {METADATA}
    ensures Lineage(LABELS) == {LABELS, METADATA}
    ensures Lineage(STRATEGY) == {STRATEGY, SPEC} && Lineage(TEMPLATE) == {TEMPLATE, SPEC}
    ensures Lineage(CONTAINER) == {CONTAINER, TEMPLATE, SPEC}
    ensures forall s: Segment :: Lineage(At(CONTAINER, s)) == {At(CONTAINER, s), CONTAINER, TEMPLATE, SPEC}
    ensures forall s: Segment :: Lineage(At(TEMPLATE, s)) == {At(TEMPLATE, s), TEMPLATE, SPEC}
    ensures forall s: Segment :: Lineage(At(SPEC, s)) == {At(SPEC, s), SPEC}
    ensures forall s: Segment :: Lineage(At(METADATA, s)) == {At(METADATA, s), METADATA}
  {
    assert Lineage(Root) == {};
    assert Lineage(SPEC) == {SPEC} + Lineage(Root);
    assert Lineage(METADATA) == {METADATA} + Lineage(Root);
    assert Lineage(TEMPLATE) == {TEMPLATE} + Lineage(SPEC);
    assert Lineage(CONTAINER) == {CONTAINER} + Lineage(TEMPLATE);
    assert Lineage(STRATEGY) == {STRATEGY} + Lineage(SPEC);
    assert Lineage(LABELS) == {LABELS} + Lineage(METADATA);
  }

  // ---------- the disruption budget ----------

  lemma CommonClear(lim: Limitador, p: Path)
    requires p in {MAX_UNAVAILABLE, MIN_AVAILABLE, ROLLING_UPDATE_FIELD}
    ensures Clear(CommonFields(lim), p) && Clear(SelectorLabels(At(SPEC, Selector), lim), p)
  {
    hide APP_NAME, Clear, Lineage, K8sObjects.Labels, SelectorLabels;
    CommonParentsMiss(p);
    var labels := K8sObjects.Labels(LABELS, lim);
    var owner := map[At(At(METADATA, OwnerReferences), Item(lim.name)) := Struct];
    LabelsBelow(LABELS, lim);
    LabelsBelow(At(SPEC, Selector), lim);
    ClearBelow(labels, {LABELS}, p);
    ClearBelow(owner, {At(METADATA, OwnerReferences)}, p);
    ClearWith(labels, owner, p);
    ClearBelow(SelectorLabels(At(SPEC, Selector), lim), {At(SPEC, Selector)}, p);
  }

  lemma LabelsBelow(parent: Path, lim: Limitador)
    ensures forall q | q in K8sObjects.Labels(parent, lim) :: q.At? && q.parent == parent
    ensures forall q | q in SelectorLabels(parent, lim) :: q.At? && q.parent == parent
  {
    hide APP_NAME;
  }

  lemma CommonParentsMiss(p: Path)
    requires p in {MAX_UNAVAILABLE, MIN_AVAILABLE, ROLLING_UPDATE_FIELD}
    ensures p !in Lineage(LABELS) && p !in Lineage(At(METADATA, OwnerReferences)) && p !in Lineage(At(SPEC, Selector))
  {
    KnownLineages();
  }

  lemma OptionalClear(q: Path, v: Option<string>, p: Path)
    requires (p, q) in {(MAX_UNAVAILABLE, MIN_AVAILABLE), (MIN_AVAILABLE, MAX_UNAVAILABLE)}
    ensures Clear(OptionalField(q, v), p)
    ensures v.None? ==> Clear(OptionalField(p, v), p)
  {
    KnownLineages();
    ClearBelow(OptionalField(q, v), {SPEC}, p);
  }

  function BoundOf(b: PodDisruptionBudgetType, p: Path): Option<string> {
    if p == MAX_UNAVAILABLE then b.maxUnavailable else b.minAvailable
  }

  /** A bound that is not set is not listed, at any depth. */
  lemma UnsetIsClear(lim: Limitador, p: Path)
    requires lim.spec.podDisruptionBudget.Some? && p in {MAX_UNAVAILABLE, MIN_AVAILABLE}
    requires BoundOf(lim.spec.podDisruptionBudget.value, p).None?
    ensures Clear(PdbManifest(lim).Desired(), p)
  {
    hide CommonFields, SelectorLabels, OptionalField, Clear;
    UntaggedDesired(PdbManifest(lim));
    var b := lim.spec.podDisruptionBudget.value;
    var q := if p == MAX_UNAVAILABLE then MIN_AVAILABLE else MAX_UNAVAILABLE;
    CommonClear(lim, p);
    OptionalClear(q, BoundOf(b, q), p);
    OptionalClear(q, None, p);
    var common, selector := CommonFields(lim), SelectorLabels(At(SPEC, Selector), lim);
    var most, least := OptionalField(MAX_UNAVAILABLE, b.maxUnavailable), OptionalField(MIN_AVAILABLE, b.minAvailable);
    ClearWith(common, selector, p);
    ClearWith(common + selector, most, p);
    ClearWith(common + selector + most, least, p);
  }

  /** The budget asks for neither, one or the other, never both. */
  lemma PdbAsksForOne(lim: Limitador)
    requires PdbRule(lim.spec) && lim.spec.podDisruptionBudget.Some?
    ensures var d := PdbManifest(lim).Desired(); Clear(d, MAX_UNAVAILABLE) || Clear(d, MIN_AVAILABLE)
  {
    hide Clear, PdbManifest;
    UnsetIsClear(lim, if lim.spec.podDisruptionBudget.value.maxUnavailable.None? then MAX_UNAVAILABLE
                      else MIN_AVAILABLE);
  }

  /** After any history of specs and of other managers' edits, once the operator applies an admitted budget: at least
      one of the two bounds is not listed, and a bound that is not listed is there only if it is not the operator's
      doing: either the operator never listed it before, or another manager holds it. So on a switch from one bound to
      the other the old one is gone, unless another manager holds it. */
  lemma PdbNeverBoth(edits: seq<Edit>, lim: Limitador)
    requires PdbRule(lim.spec) && lim.spec.podDisruptionBudget.Some? && WritesStayOutside(OPERATOR, edits)
    ensures var d := PdbManifest(lim).Desired(); var after := PerformEdits(EMPTY, edits + [Applied(OPERATOR, d)]);
      && (Clear(d, MAX_UNAVAILABLE) || Clear(d, MIN_AVAILABLE))
      && forall p | p in {MAX_UNAVAILABLE, MIN_AVAILABLE} && Clear(d, p) && p in after.fields ::
           p !in EverListed(OPERATOR, edits) || HeldByAnother(after, p)
  {
    hide PerformEdits, WritesStayOutside, EverListed;
    var d := PdbManifest(lim).Desired();
    PdbWellMade(lim);
    WellMadeNoRoot(d);
    PdbAsksForOne(lim);
    LastDesiredWins(OPERATOR, edits, d);
  }

  ghost predicate HeldByAnother(c: Content, p: Path) {
    exists n | n in c.owned && n != OPERATOR :: Spans(c.owned[n], p)
  }

  /** The switch itself, in either direction: a budget with the bound `p` was applied last, one without it is applied
      now. Then all that is asked for now is there, and the old bound is gone unless another manager holds it. */
  lemma PdbSwitches(edits: seq<Edit>, before: Limitador, lim: Limitador, p: Path)
    requires WritesStayOutside(OPERATOR, edits) && p in {MAX_UNAVAILABLE, MIN_AVAILABLE}
    requires before.spec.podDisruptionBudget.Some? && BoundOf(before.spec.podDisruptionBudget.value, p).Some?
    requires lim.spec.podDisruptionBudget.Some? && BoundOf(lim.spec.podDisruptionBudget.value, p).None?
    ensures var first, second := PdbManifest(before).Desired(), PdbManifest(lim).Desired();
      var after := PerformEdits(EMPTY, edits + [Applied(OPERATOR, first), Applied(OPERATOR, second)]);
      && Matches(after, OPERATOR, second)
      && (p in after.fields ==> HeldByAnother(after, p))
  {
    hide PerformEdits, PdbManifest, Clear, Matches;
    var first, second := PdbManifest(before).Desired(), PdbManifest(lim).Desired();
    var all := edits + [Applied(OPERATOR, first)];
    assert all[..|all| - 1] == edits;
    assert all + [Applied(OPERATOR, second)] == edits + [Applied(OPERATOR, first), Applied(OPERATOR, second)];
    PdbWellMade(before);
    PdbWellMade(lim);
    WellMadeNoRoot(first);
    WellMadeNoRoot(second);
    BudgetBounds(before);
    UnsetIsClear(lim, p);
    assert p in EverListed(OPERATOR, all);
    LastDesiredWins(OPERATOR, all, second);
    ClearIsNotSpanned(second, p);
  }

  lemma ClearIsNotSpanned(d: FieldMap, p: Path)
    requires Clear(d, p)
    ensures !Spans(d.Keys, p)
  {
  }

  lemma WellMadeNoRoot(fields: FieldMap)
    requires WellMade(fields)
    ensures NoRoot(fields)
  {
  }

  // ---------- the rolling update ----------

  lemma ParentsMiss()
    ensures ROLLING_UPDATE_FIELD !in Lineage(TEMPLATE) && ROLLING_UPDATE_FIELD !in Lineage(CONTAINER)
    ensures forall s: Segment :: ROLLING_UPDATE_FIELD !in Lineage(At(TEMPLATE, s))
    ensures forall s: Segment :: ROLLING_UPDATE_FIELD !in Lineage(At(CONTAINER, s))
  {
    KnownLineages();
  }

  /** Fields directly below one parent that is not the strategy and does not lie below the rolling update. */
  lemma ClearUnder(fields: FieldMap, parent: Path)
    requires forall q | q in fields :: q.At? && q.parent == parent
    requires parent != STRATEGY && ROLLING_UPDATE_FIELD !in Lineage(parent)
    ensures Clear(fields, ROLLING_UPDATE_FIELD)
  {
  }

  lemma TemplateClear(lim: Limitador, o: DeploymentOptions)
    ensures Clear(TemplateFields(lim, o), ROLLING_UPDATE_FIELD)
  {
    hide APP_NAME, VolumeFields, Clear, Lineage;
    ParentsMiss();
    var labels := K8sObjects.Labels(At(TEMPLATE, Segment.Labels), lim);
    var affinity := OptionalField(At(TEMPLATE, Affinity), lim.spec.affinity);
    var secrets: FieldMap :=
      if o.imagePullSecrets == [] then map[] else map[At(TEMPLATE, ImagePullSecrets) := Texts(o.imagePullSecrets)];
    ClearUnder(labels, At(TEMPLATE, Segment.Labels));
    ClearUnder(affinity, TEMPLATE);
    ClearUnder(secrets, TEMPLATE);
    ClearUnder(VolumeFields(o.volumes), At(TEMPLATE, Volumes));
    ClearWith(labels, affinity, ROLLING_UPDATE_FIELD);
    ClearWith(labels + affinity, secrets, ROLLING_UPDATE_FIELD);
    ClearWith(labels + affinity + secrets, VolumeFields(o.volumes), ROLLING_UPDATE_FIELD);
  }

  lemma ContainerClear(lim: Limitador, image: string, o: DeploymentOptions)
    ensures Clear(ContainerFields(lim, image, o), ROLLING_UPDATE_FIELD)
  {
    hide EnvFields, MountFields, Clear, Lineage, ContainerBase;
    ParentsMiss();
    ContainerBaseClear(lim, image, o.args);
    ClearUnder(EnvFields(o.envVar), At(CONTAINER, Env));
    ClearUnder(MountFields(o.volumeMounts), At(CONTAINER, VolumeMounts));
    var base := ContainerBase(lim, image, o.args);
    ClearWith(base, EnvFields(o.envVar), ROLLING_UPDATE_FIELD);
    ClearWith(base + EnvFields(o.envVar), MountFields(o.volumeMounts), ROLLING_UPDATE_FIELD);
  }

  lemma ContainerBaseClear(lim: Limitador, image: string, args: seq<string>)
    ensures Clear(ContainerBase(lim, image, args), ROLLING_UPDATE_FIELD)
  {
    hide Lineage, Clear;
    ParentsMiss();
    var base := ContainerBase(lim, image, args);
    assert forall q | q in base :: q.At? && q.parent in {CONTAINER, At(CONTAINER, Segment.Ports)};
    ClearBelow(base, {CONTAINER, At(CONTAINER, Segment.Ports)}, ROLLING_UPDATE_FIELD);
  }

  lemma RecreateClear(lim: Limitador)
    ensures Clear(StrategyFields(RECREATE), ROLLING_UPDATE_FIELD)
    ensures Clear(map[REPLICAS := Number(lim.GetReplicas())], ROLLING_UPDATE_FIELD)
  {
    KnownLineages();
    ClearBelow(StrategyFields(RECREATE), {STRATEGY}, ROLLING_UPDATE_FIELD);
    ClearBelow(map[REPLICAS := Number(lim.GetReplicas())], {SPEC}, ROLLING_UPDATE_FIELD);
  }

  lemma DiskClear(lim: Limitador)
    requires DiskSelected(lim.spec)
    ensures Clear(DeploymentManifest(lim).Desired(), ROLLING_UPDATE_FIELD)
  {
    hide OptionsOf, ImageOf, CommonFields, SelectorLabels, TemplateFields, ContainerFields, StrategyFields, Clear,
         RECREATE;
    UntaggedDesired(DeploymentManifest(lim));
    ChoiceOfStrategy(lim);
    var o, image := OptionsOf(lim), ImageOf(lim);
    CommonClear(lim, ROLLING_UPDATE_FIELD);
    TemplateClear(lim, o);
    ContainerClear(lim, image, o);
    RecreateClear(lim);
    var common, selector := CommonFields(lim), SelectorLabels(At(SPEC, Selector), lim);
    var template, container := TemplateFields(lim, o), ContainerFields(lim, image, o);
    var strategy := StrategyFields(o.strategy);
    ClearWith(common, selector, ROLLING_UPDATE_FIELD);
    ClearWith(common + selector, template, ROLLING_UPDATE_FIELD);
    ClearWith(common + selector + template, container, ROLLING_UPDATE_FIELD);
    ClearWith(common + selector + template + container, strategy, ROLLING_UPDATE_FIELD);
    ClearWith(common + selector + template + container + strategy, map[REPLICAS := Number(lim.GetReplicas())],
              ROLLING_UPDATE_FIELD);
  }

  /** Moving to disk storage: the rolling update and whatever hangs below it, defaulted by the API server, is gone from
      a Deployment on which nobody else manages any of it. */
  lemma RollingUpdateGone(c: Content, lim: Limitador)
    requires DiskSelected(lim.spec) && ROLLING_UPDATE_FIELD in c.OwnedBy(OPERATOR)
    requires forall n | n in c.owned && n != OPERATOR :: !Spans(c.owned[n], ROLLING_UPDATE_FIELD)
    ensures forall q | q in Apply(c, OPERATOR, DeploymentManifest(lim).Desired()).fields ::
      ROLLING_UPDATE_FIELD !in Lineage(q)
  {
    hide DeploymentManifest;
    DiskClear(lim);
    var d := DeploymentManifest(lim).Desired();
    var owned := OwnersAfter(c, OPERATOR, d);
    forall n | n in owned
      ensures !Spans(owned[n], ROLLING_UPDATE_FIELD)
    {
      if n != OPERATOR {
        assert owned[n] <= c.owned[n];
      }
    }
    ApplyDropsSubtree(c, OPERATOR, d, ROLLING_UPDATE_FIELD);
  }
}
