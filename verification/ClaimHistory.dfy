/** The life of the persistent volume claim along a run: created once, kept as created, visible to the operator, until
    the operator deletes it. Reads may lag, calls may fail, the user may edit the resource at any time. */
module ClaimHistory {
  import opened Wrappers
  import opened Fields
  import opened Objects
  import opened LimitadorTypes
  import opened K8sObjects
  import opened Cluster
  import opened Reconcilers
  import opened Controller
  import opened Histories
  import opened Runs
  import opened Annotations
  import opened Convergence

  /** Nobody else overwrites or deletes the claim. Other field managers may apply to it, without force, and may write
      and remove any fields of it outside `held`. */
  predicate SparesClaim(s: EnvStep, k: Key, held: set<Path>) {
    match s
    case WriteObject(j, _) => j != k
    case ForeignApply(j, m, _) => j == k ==> m != CREATOR
    case ForeignUpdate(j, m, written, removed) =>
      j == k ==> m != CREATOR && (written.Keys + removed) !! held
    case _ => true
  }

  predicate SparingTurns(turns: seq<Turn>, k: Key, held: set<Path>) {
    forall t | t in turns :: forall s | s in t.steps :: SparesClaim(s, k, held)
  }

  /** The fields with which the operator last created `k`, unless it has deleted it since. */
  function LastClaim(journal: seq<Event>, k: Key): Option<FieldMap> {
    if journal == [] then None
    else
      var e := journal[|journal| - 1];
      if e.CreatedObject? && e.key == k then Some(e.fields)
      else if e.DeletedObject? && e.key == k then None
      else LastClaim(journal[..|journal| - 1], k)
  }

  /** No creation while an earlier one stands. */
  ghost predicate CreatedOnce(journal: seq<Event>, k: Key) {
    forall i | 0 <= i < |journal| && journal[i].CreatedObject? && journal[i].key == k ::
      LastClaim(journal[..i], k).None?
  }

  /** A standing claim is in the store, holds every field it was created with, and passes the cache's label filter. */
  ghost predicate ClaimSound(w: World, k: Key) {
    && CreatedOnce(w.journal, k)
    && match LastClaim(w.journal, k)
       case None => true
       case Some(fields) =>
         && NoRoot(fields) && Stored(w, k).Some? && Matches(Stored(w, k).value.content, CREATOR, fields)
         && HasAppLabel(Stored(w, k).value.content)
  }

  /** Every claim created so far was created with fields in `held`. */
  ghost predicate CreatedWithin(journal: seq<Event>, k: Key, held: set<Path>) {
    forall i | 0 <= i < |journal| && journal[i].CreatedObject? && journal[i].key == k :: journal[i].fields.Keys <= held
  }

  lemma {:induction false} LastClaimWithin(journal: seq<Event>, k: Key, held: set<Path>)
    requires CreatedWithin(journal, k, held) && LastClaim(journal, k).Some?
    ensures LastClaim(journal, k).value.Keys <= held
  {
    var e := journal[|journal| - 1];
    if !(e.CreatedObject? && e.key == k) {
      LastClaimWithin(journal[..|journal| - 1], k, held);
    }
  }

  /** From `w` to `x` the claim is looked after, provided the turns that go by spare it. */
  ghost predicate Keeps(w: World, x: World, k: Key, held: set<Path>) {
    && Follows(w, x) && w.journal <= x.journal
    && (SparingTurns(Elapsed(w, x), k, held) && CreatedWithin(x.journal, k, held) && ClaimSound(w, k) ==>
          ClaimSound(x, k))
  }

  lemma SplitSparingTurns(w: World, x: World, y: World, k: Key, held: set<Path>)
    requires Follows(w, x) && Follows(x, y)
    ensures Follows(w, y)
    ensures SparingTurns(Elapsed(w, y), k, held) <==>
      SparingTurns(Elapsed(w, x), k, held) && SparingTurns(Elapsed(x, y), k, held)
  {
    hide Follows, Elapsed, SparesClaim;
    FollowsTransitive(w, x, y);
    var first, second := Elapsed(w, x), Elapsed(x, y);
    assert forall t :: t in first + second <==> t in first || t in second;
  }

  lemma KeepsTransitive(w: World, x: World, y: World, k: Key, held: set<Path>)
    requires Keeps(w, x, k, held) && Keeps(x, y, k, held)
    ensures Keeps(w, y, k, held)
  {
    hide Follows, Elapsed, SparingTurns, ClaimSound;
    SplitSparingTurns(w, x, y, k, held);
    assert forall i | 0 <= i < |x.journal| :: x.journal[i] == y.journal[i];
  }

  lemma SameKeeps(w: World, x: World, k: Key, held: set<Path>)
    requires x.agenda == w.agenda && x.journal == w.journal && Stored(x, k) == Stored(w, k)
    ensures Keeps(w, x, k, held)
  {
    hide CreatedOnce, Matches, HasAppLabel;
    SameFollows(w, x);
  }

  lemma ElsewhereKeeps(w: World, j: Key, o: Option<Object>, k: Key, held: set<Path>)
    requires j != k
    ensures Keeps(w, Append(w, j, o), k, held)
  {
    hide Keeps;
    StoredAfterAppend(w, j, o);
    SameKeeps(w, Append(w, j, o), k, held);
  }

  lemma PutElsewhereKeeps(w: World, j: Key, c: Content, k: Key, held: set<Path>)
    requires j != k
    ensures Keeps(w, Put(w, j, c), k, held)
  {
    hide Keeps, Put;
    StoredAfterPut(w, j, c);
    PutJournal(w, j, c);
    SameKeeps(w, Put(w, j, c), k, held);
  }

  lemma PutJournal(w: World, j: Key, c: Content)
    ensures Put(w, j, c).journal == w.journal && Put(w, j, c).agenda == w.agenda
  {
    hide NextObject;
  }

  lemma LabelKept(c: Content, m: Manager, theirs: FieldMap, fields: FieldMap)
    requires m != CREATOR && NoRoot(fields) && Matches(c, CREATOR, fields)
    ensures Matches(TryApply(c, m, theirs), CREATOR, fields)
    ensures APP_LABEL in fields && fields[APP_LABEL] == APP_NAME ==> HasAppLabel(TryApply(c, m, theirs))
  {
    hide TryApply;
    TryApplyKeepsMatch(c, CREATOR, fields, m, theirs);
  }

  /** The operator's claims carry the label among their own fields. */
  ghost predicate ClaimLabelled(w: World, k: Key) {
    match LastClaim(w.journal, k)
    case None => true
    case Some(fields) => APP_LABEL in fields && fields[APP_LABEL] == APP_NAME
  }

  lemma ForeignApplyKeeps(w: World, m: Manager, theirs: FieldMap, k: Key, held: set<Path>)
    requires m != CREATOR && Stored(w, k).Some? && ClaimLabelled(w, k)
    ensures Keeps(w, Put(w, k, TryApply(Stored(w, k).value.content, m, theirs)), k, held)
  {
    hide Put, TryApply, SparingTurns, CreatedOnce, HasAppLabel, Matches;
    var c := Stored(w, k).value.content;
    var x := Put(w, k, TryApply(c, m, theirs));
    StoredAfterPut(w, k, TryApply(c, m, theirs));
    PutJournal(w, k, TryApply(c, m, theirs));
    if ClaimSound(w, k) && LastClaim(w.journal, k).Some? {
      LabelKept(c, m, theirs, LastClaim(w.journal, k).value);
    }
  }

  lemma ForeignUpdateKeeps(w: World, m: Manager, written: FieldMap, removed: set<Path>, k: Key, held: set<Path>)
    requires m != CREATOR && (written.Keys + removed) !! held && Stored(w, k).Some? && ClaimLabelled(w, k)
    ensures Keeps(w, Put(w, k, Update(Stored(w, k).value.content, m, written, removed)), k, held)
  {
    hide Put, Update, SparingTurns, CreatedOnce, Matches;
    var c := Stored(w, k).value.content;
    var after := Update(c, m, written, removed);
    StoredAfterPut(w, k, after);
    PutJournal(w, k, after);
    SameFollows(w, Put(w, k, after));
    if ClaimSound(w, k) && LastClaim(w.journal, k).Some? && CreatedWithin(w.journal, k, held) {
      var fields := LastClaim(w.journal, k).value;
      LastClaimWithin(w.journal, k, held);
      UpdateKeepsMatch(c, CREATOR, fields, m, written, removed);
      MatchesIsLabelled(after, CREATOR, fields);
    }
  }

  lemma EnvStepKeeps(w: World, s: EnvStep, k: Key, held: set<Path>)
    requires SparesClaim(s, k, held) && ClaimLabelled(w, k)
    ensures Keeps(w, EnvStepWorld(w, s), k, held) && EnvStepWorld(w, s).journal == w.journal
  {
    hide Keeps, Put, Append, TryApply, Update, PutResource, EnvResource, ClaimLabelled;
    SameKeeps(w, w, k, held);
    match s
    case WriteObject(j, None) => ElsewhereKeeps(w, j, None, k, held);
      AppendJournal(w, j, None);
    case WriteObject(j, Some(c)) =>
      PutElsewhereKeeps(w, j, c, k, held);
      PutJournal(w, j, c);
      SameKeeps(Put(w, j, c), Enroll(Put(w, j, c), j), k, held);
      KeepsTransitive(w, Put(w, j, c), Enroll(Put(w, j, c), j), k, held);
    case ForeignApply(j, m, fields) =>
      if m != OPERATOR && Stored(w, j).Some? {
        var c := TryApply(Stored(w, j).value.content, m, fields);
        PutJournal(w, j, c);
        if j == k {
          ForeignApplyKeeps(w, m, fields, k, held);
        } else {
          PutElsewhereKeeps(w, j, c, k, held);
        }
      }
    case ForeignUpdate(j, m, written, removed) =>
      if m != OPERATOR && Stored(w, j).Some? {
        var c := Update(Stored(w, j).value.content, m, written, removed);
        PutJournal(w, j, c);
        if j == k {
          ForeignUpdateKeeps(w, m, written, removed, k, held);
        } else {
          PutElsewhereKeeps(w, j, c, k, held);
        }
      }
    case Rollout(j, status) =>
      if Stored(w, j).Some? {
        var o := Stored(w, j).value.(version := w.clock + 1, status := status);
        AppendJournal(w, j, Some(o));
        RolloutKeeps(w, j, o, k, held);
      }
    case Deliver(_) => SameKeeps(w, EnvStepWorld(w, s), k, held);
    case DeliverLimitador => SameKeeps(w, EnvStepWorld(w, s), k, held);
    case Tick => SameKeeps(w, EnvStepWorld(w, s), k, held);
    case EditSpec(_) => ResourceKeeps(w, s, k, held);
    case MarkDeleted => ResourceKeeps(w, s, k, held);
    case RemoveLimitador => ResourceKeeps(w, s, k, held);
    case SetForeignCondition(_) => ResourceKeeps(w, s, k, held);
  }

  lemma AppendJournal(w: World, j: Key, o: Option<Object>)
    ensures Append(w, j, o).journal == w.journal && Append(w, j, o).agenda == w.agenda
  {
  }

  lemma ResourceKeeps(w: World, s: EnvStep, k: Key, held: set<Path>)
    ensures StoredResource(w).Some? ==>
      var x := PutResource(w, EnvResource(StoredResource(w).value, s)); Keeps(w, x, k, held) && x.journal == w.journal
  {
    hide Keeps, EnvResource;
    if StoredResource(w).Some? {
      SameKeeps(w, PutResource(w, EnvResource(StoredResource(w).value, s)), k, held);
    }
  }

  lemma RolloutKeeps(w: World, j: Key, o: Object, k: Key, held: set<Path>)
    requires Stored(w, j).Some? && o.content == Stored(w, j).value.content
    ensures Keeps(w, Append(w, j, Some(o)), k, held)
  {
    hide Matches, HasAppLabel, SparingTurns, CreatedOnce;
    StoredAfterAppend(w, j, Some(o));
    AppendJournal(w, j, Some(o));
  }

  lemma {:induction false} EnvStepsKeep(w: World, steps: seq<EnvStep>, k: Key, held: set<Path>)
    requires (forall s | s in steps :: SparesClaim(s, k, held)) && ClaimLabelled(w, k)
    ensures Keeps(w, EnvSteps(w, steps), k, held) && EnvSteps(w, steps).journal == w.journal
    decreases |steps|
  {
    hide Keeps, EnvStepWorld, SparesClaim;
    if steps == [] {
      SameKeeps(w, w, k, held);
    } else {
      var x := EnvStepWorld(w, steps[0]);
      EnvStepKeeps(w, steps[0], k, held);
      EnvStepsKeep(x, steps[1..], k, held);
      KeepsTransitive(w, x, EnvSteps(x, steps[1..]), k, held);
    }
  }

  lemma BeforeKeeps(w: World, k: Key, held: set<Path>)
    requires ClaimLabelled(w, k)
    ensures Keeps(w, Before(w), k, held) && Before(w).journal == w.journal
  {
    hide EnvSteps, SparesClaim, ClaimSound, Passes;
    BeforePasses(w);
    PassesJournal(w, Before(w));
    BeforeFollows(w);
    if w.agenda != [] && SparingTurns(Elapsed(w, Before(w)), k, held) && ClaimSound(w, k) {
      var x := w.(agenda := w.agenda[1..]);
      assert w.agenda[0] in Elapsed(w, Before(w));
      SameClaim(w, x, k);
      EnvStepsKeep(x, w.agenda[0].steps, k, held);
    }
  }

  lemma SameClaim(w: World, x: World, k: Key)
    requires x.hist == w.hist && x.journal == w.journal
    ensures ClaimSound(x, k) == ClaimSound(w, k) && ClaimLabelled(x, k) == ClaimLabelled(w, k)
  {
    assert Stored(x, k) == Stored(w, k);
  }

  // ---------- the operator ----------

  /** `Keeps`, together with the label of what was created. */
  ghost predicate Tends(w: World, x: World, k: Key, held: set<Path>) {
    ClaimLabelled(w, k) ==> ClaimLabelled(x, k) && Keeps(w, x, k, held)
  }

  lemma TendsTransitive(w: World, x: World, y: World, k: Key, held: set<Path>)
    requires Tends(w, x, k, held) && Tends(x, y, k, held)
    ensures Tends(w, y, k, held)
  {
    hide ClaimLabelled, Keeps;
    if ClaimLabelled(w, k) {
      KeepsTransitive(w, x, y, k, held);
    }
  }

  lemma BeforeTends(w: World, k: Key, held: set<Path>)
    ensures Tends(w, Before(w), k, held)
  {
    hide Keeps, Before, Passes;
    BeforePasses(w);
    PassesJournal(w, Before(w));
    if ClaimLabelled(w, k) {
      BeforeKeeps(w, k, held);
    }
  }

  lemma SameTends(w: World, x: World, k: Key, held: set<Path>)
    requires x.agenda == w.agenda && x.journal == w.journal && Stored(x, k) == Stored(w, k)
    ensures Tends(w, x, k, held)
  {
    hide Keeps;
    SameKeeps(w, x, k, held);
  }

  predicate AboutClaim(e: Event, k: Key) {
    (e.CreatedObject? || e.DeletedObject?) && e.key == k
  }

  lemma NoteTends(w: World, e: Event, k: Key, held: set<Path>)
    requires !AboutClaim(e, k)
    ensures Tends(w, Note(w, e), k, held)
  {
    hide Matches, HasAppLabel, SparingTurns;
    var x := Note(w, e);
    SameFollows(w, x);
    assert Stored(x, k) == Stored(w, k);
    NoteLastClaim(w.journal, e, k);
    if CreatedOnce(w.journal, k) {
      OnceAppend(w.journal, e, k);
    }
  }

  lemma NoteLastClaim(journal: seq<Event>, e: Event, k: Key)
    ensures LastClaim(journal + [e], k) ==
      if e.CreatedObject? && e.key == k then Some(e.fields)
      else if e.DeletedObject? && e.key == k then None else LastClaim(journal, k)
  {
    assert (journal + [e])[..|journal|] == journal;
  }

  lemma OnceAppend(journal: seq<Event>, e: Event, k: Key)
    requires CreatedOnce(journal, k)
    requires e.CreatedObject? && e.key == k ==> LastClaim(journal, k).None?
    ensures CreatedOnce(journal + [e], k)
  {
    var all := journal + [e];
    forall i | 0 <= i < |all| && all[i].CreatedObject? && all[i].key == k
      ensures LastClaim(all[..i], k).None?
    {
      assert all[..i] == journal[..i];
      if i == |journal| {
        assert journal[..i] == journal;
      }
    }
  }

  lemma FaultyTends(w: World, done: (World, Option<Error>), k: Key, held: set<Path>)
    requires Tends(Before(w), done.0, k, held)
    ensures Tends(w, Faulty(w, done).0, k, held)
  {
    hide Tends, Before;
    BeforeTends(w, k, held);
    TendsTransitive(w, Before(w), done.0, k, held);
  }

  lemma EnforceTends(w: World, j: Key, fields: FieldMap, k: Key, held: set<Path>)
    requires j != k
    ensures Tends(w, Patch(w, j, fields).0, k, held)
  {
    hide Tends, Before, Put, Apply, Faulty, Note;
    var x := Before(w);
    SameTends(x, x, k, held);
    var c := Apply(StoredContent(x, j), OPERATOR, fields);
    StoredAfterPut(x, j, c);
    PutJournal(x, j, c);
    var y := Put(x, j, c);
    SameTends(x, y, k, held);
    NoteTends(y, AppliedObject(j, fields), k, held);
    TendsTransitive(x, y, Note(y, AppliedObject(j, fields)), k, held);
    FaultyTends(w, ServeApply(x, j, fields), k, held);
  }

  lemma DiscardTends(w: World, j: Key, k: Key, held: set<Path>)
    ensures Tends(w, Delete(w, j).0, k, held)
  {
    hide Tends, Before, Faulty;
    var x := Before(w);
    SameTends(x, x, k, held);
    if Stored(x, j).Some? {
      var y := Append(x, j, None);
      StoredAfterAppend(x, j, None);
      AppendJournal(x, j, None);
      if j == k {
        DeletedTends(x, Note(y, DeletedObject(k)), k, held);
      } else {
        SameTends(x, y, k, held);
        NoteTends(y, DeletedObject(j), k, held);
        TendsTransitive(x, y, Note(y, DeletedObject(j)), k, held);
      }
    }
    FaultyTends(w, ServeDelete(x, j), k, held);
  }

  lemma DeletedTends(w: World, x: World, k: Key, held: set<Path>)
    requires x.agenda == w.agenda && x.journal == w.journal + [DeletedObject(k)]
    ensures Tends(w, x, k, held)
  {
    hide SparingTurns;
    SameFollows(w, x);
    NoteLastClaim(w.journal, DeletedObject(k), k);
    if CreatedOnce(w.journal, k) {
      OnceAppend(w.journal, DeletedObject(k), k);
    }
  }

  lemma CreatedTends(w: World, x: World, fields: FieldMap, k: Key, held: set<Path>)
    requires x.agenda == w.agenda && x.journal == w.journal + [CreatedObject(k, fields)]
    requires Stored(w, k).None?
    requires Stored(x, k).Some? && Stored(x, k).value.content == Content(fields, map[CREATOR := fields.Keys])
    requires NoRoot(fields) && APP_LABEL in fields && fields[APP_LABEL] == APP_NAME
    ensures Tends(w, x, k, held)
  {
    hide SparingTurns;
    SameFollows(w, x);
    NoteLastClaim(w.journal, CreatedObject(k, fields), k);
    if ClaimSound(w, k) {
      OnceAppend(w.journal, CreatedObject(k, fields), k);
    }
  }

  lemma CreateTends(w: World, fields: FieldMap, k: Key, held: set<Path>)
    requires NoRoot(fields) && APP_LABEL in fields && fields[APP_LABEL] == APP_NAME
    ensures Tends(w, Create(w, k, fields).0, k, held)
  {
    hide Tends, Before, Faulty, Put;
    var x := Before(w);
    SameTends(x, x, k, held);
    if Stored(x, k).None? {
      var c := Content(fields, map[CREATOR := fields.Keys]);
      StoredAfterPut(x, k, c);
      PutJournal(x, k, c);
      var y := Note(Put(x, k, c), CreatedObject(k, fields));
      assert Stored(y, k) == Stored(Put(x, k, c), k);
      CreatedTends(x, y, fields, k, held);
    }
    FaultyTends(w, ServeCreate(x, k, fields), k, held);
  }

  /** What a planned or pod action may be, seen from the claim. */
  predicate Suits(a: Action, k: Key) {
    match a
    case Enforce(j, _) => j != k
    case Provide(j, fields) => j == k && NoRoot(fields) && APP_LABEL in fields && fields[APP_LABEL] == APP_NAME
    case _ => true
  }

  lemma PerformTends(w: World, a: Action, k: Key, held: set<Path>)
    requires Suits(a, k)
    ensures Tends(w, Perform(w, a).0, k, held)
  {
    hide Tends, Before, Patch, Delete, Create, View;
    BeforeTends(w, k, held);
    match a
    case Enforce(j, fields) => EnforceTends(w, j, fields, k, held);
    case Discard(j) => DiscardTends(w, j, k, held);
    case Provide(j, fields) =>
      CreateTends(Before(w), fields, k, held);
      TendsTransitive(w, Before(w), Create(Before(w), k, fields).0, k, held);
    case DemandURL(_) =>
    case Fail(_) => SameTends(w, w, k, held);
  }

  lemma {:induction false} ExecTends(w: World, plan: seq<Action>, k: Key, held: set<Path>)
    requires forall a | a in plan :: Suits(a, k)
    ensures Tends(w, Exec(w, plan).0, k, held)
    decreases |plan|
  {
    hide Tends, Perform, Suits;
    if plan == [] {
      SameTends(w, w, k, held);
    } else {
      var done := Perform(w, plan[0]);
      PerformTends(w, plan[0], k, held);
      ExecTends(done.0, plan[1..], k, held);
      if done.1.None? {
        TendsTransitive(w, done.0, Exec(done.0, plan[1..]).0, k, held);
      }
    }
  }

  lemma PlanSuits(lim: Limitador)
    ensures forall a | a in SpecPlan(lim) :: Suits(a, PVCKey(lim))
  {
    hide SpecPlan;
    PlanContents(lim);
    assert forall a | a in SpecPlan(lim) :: PlannedFor(lim, a);
  }

  lemma PodPlanSuits(pods: seq<ListedPod>, version: nat, k: Key)
    requires k.kind != Pod && forall p | p in pods :: p.key.kind == Pod
    ensures forall a | a in PodPlan(pods, version) :: Suits(a, k)
  {
    hide ActionFor, PodPatch, OutOfDate;
    PodPlanActions(pods, version);
    forall a | a in PodPlan(pods, version)
      ensures Suits(a, k)
    {
      var p :| p in pods && OutOfDate(p, version) && a == ActionFor(PodPatch(p.key, version));
      PodPatchAction(p.key, version);
    }
  }

  lemma AnnotateTends(w: World, lim: Limitador, k: Key, held: set<Path>)
    requires k.kind != Pod
    ensures Tends(w, AnnotatePods(w, lim).world, k, held)
  {
    hide Tends, Before, Exec, SelectorLabels, PodPlan, View, Suits;
    var x := Before(w);
    BeforeTends(w, k, held);
    var listed := ListPods(w, lim.namespace, SelectorLabels(LABELS, lim));
    if listed.1.Ok? && listed.1.value != [] && !ReplicasMismatch(lim, |listed.1.value|) {
      ListedAreSelected(x, x.roster, lim.namespace, SelectorLabels(LABELS, lim));
      var y := Before(x);
      BeforeTends(x, k, held);
      TendsTransitive(w, x, y, k, held);
      var got := Get(x, ConfigMapKey(lim));
      if got.1.Ok? {
        var plan := PodPlan(listed.1.value, got.1.value.version);
        PodPlanSuits(listed.1.value, got.1.value.version, k);
        ExecTends(y, plan, k, held);
        TendsTransitive(w, y, Exec(y, plan).0, k, held);
      }
    }
  }

  lemma SpecEffectTends(w: World, lim: Limitador, held: set<Path>)
    ensures Tends(w, SpecEffect(w, lim).world, PVCKey(lim), held)
  {
    hide Tends, SpecPlan, Exec, AnnotatePods, Note, Suits;
    var k := PVCKey(lim);
    PlanSuits(lim);
    ExecTends(w, SpecPlan(lim), k, held);
    var x := Exec(w, SpecPlan(lim)).0;
    AnnotateTends(x, lim, k, held);
    var y := AnnotatePods(x, lim).world;
    TendsTransitive(w, x, y, k, held);
    NoteTends(y, SpecCompleted(lim.generation), k, held);
    TendsTransitive(w, y, Note(y, SpecCompleted(lim.generation)), k, held);
  }

  lemma PatchStatusTends(w: World, status: LimitadorStatus, at: nat, k: Key, held: set<Path>)
    ensures Tends(w, PatchStatus(w, status, at).0, k, held)
  {
    hide Tends, Before, MergeStatus, Note;
    var x := Before(w);
    SameTends(x, x, k, held);
    if StoredResource(x).Some? {
      var y := PutResource(x, Some(MergeStatus(StoredResource(x).value, status)));
      SameTends(x, y, k, held);
      NoteTends(y, WroteStatus(status, at), k, held);
      TendsTransitive(x, y, Note(y, WroteStatus(status, at)), k, held);
    }
    FaultyTends(w, ServeStatus(x, status, at), k, held);
  }

  lemma StatusEffectTends(w: World, lim: Limitador, specErr: Option<Error>, k: Key, held: set<Path>)
    ensures Tends(w, StatusEffect(w, lim, specErr).0, k, held)
  {
    hide Tends, Before, View, PatchStatus, NewStatus, Steady, Note;
    SameTends(w, w, k, held);
    BeforeTends(w, k, held);
    var x := Before(w);
    var got := Get(w, DeploymentKey(lim)).1;
    var e := CheckedDeployment(if got.Ok? then Some(got.value) else None);
    NoteTends(x, e, k, held);
    TendsTransitive(w, x, Note(x, e), k, held);
    var ready := ReadyCondition(w, lim, specErr);
    if ready.1.Ok? {
      var status := NewStatus(lim, ready.1.value, ready.0.now);
      PatchStatusTends(ready.0, status, ready.0.now, k, held);
      TendsTransitive(w, ready.0, PatchStatus(ready.0, status, ready.0.now).0, k, held);
    }
  }

  lemma ReconcileTends(w: World, k: Key, held: set<Path>)
    requires GetLimitador(w).1.Ok? ==> PVCKey(GetLimitador(w).1.value) == k
    ensures Tends(w, ReconcileEffect(w).world, k, held)
  {
    hide GetLimitador, SpecEffect, StatusEffect, Tends, PVCKey;
    var got := GetLimitador(w);
    GetIsBeforeResource(w);
    BeforeTends(w, k, held);
    if got.1.Ok? && !got.1.value.deleting {
      var lim := got.1.value;
      SpecEffectTends(got.0, lim, held);
      var x := SpecEffect(got.0, lim);
      StatusEffectTends(x.world, lim, x.error, k, held);
      var y := StatusEffect(x.world, lim, x.error).0;
      TendsTransitive(w, got.0, x.world, k, held);
      TendsTransitive(w, x.world, y, k, held);
    }
  }

  lemma GetIsBeforeResource(w: World)
    ensures GetLimitador(w).0 == Before(w)
  {
    hide Before;
  }

  /** Along any run during which nobody else overwrites the claim, where `held` holds the fields of every claim created
      in it: as long as the operator has not deleted a claim it created, that claim is stored, keeps every field it was
      created with, is never hidden by the cache's label filter, and is not created again. */
  lemma {:induction false} ClaimIsKept(w: World, n: nat, first: Resource, held: set<Path>)
    requires Sound(w) && w.resource != [] && w.resource[0] == Some(first)
    requires var k := PVCKey(first.lim); ClaimSound(w, k) && ClaimLabelled(w, k)
    requires var k := PVCKey(first.lim); var x := Run(w, n);
      SparingTurns(Elapsed(w, x), k, held) && CreatedWithin(x.journal, k, held)
    ensures var k := PVCKey(first.lim); var x := Run(w, n); ClaimSound(x, k) && ClaimLabelled(x, k)
  {
    hide Sound, ReconcileEffect, GetLimitador, SparingTurns, ClaimSound, ClaimLabelled, Follows, Elapsed, PVCKey;
    if n == 0 {
      assert Run(w, n) == w;
    } else {
      var x, y, k := Run(w, n - 1), Run(w, n), PVCKey(first.lim);
      RunFollows(w, n - 1);
      ReconcileFollows(x);
      SplitSparingTurns(w, x, y, k, held);
      RunSound(w, n - 1);
      ReconcileExtends(x);
      GrowsParts(x, y);
      assert forall i | 0 <= i < |x.journal| :: x.journal[i] == y.journal[i];
      ClaimIsKept(w, n - 1, first, held);
      GrowsParts(w, x);
      ReadIdentity(x, first);
      SameClaimKey(x, first);
      ReconcileTends(x, k, held);
    }
  }

  lemma SameClaimKey(x: World, first: Resource)
    requires GetLimitador(x).1.Ok? ==>
      GetLimitador(x).1.value.name == first.lim.name && GetLimitador(x).1.value.namespace == first.lim.namespace
    ensures GetLimitador(x).1.Ok? ==> PVCKey(GetLimitador(x).1.value) == PVCKey(first.lim)
  {
    hide GetLimitador;
  }
}
