/** What "the spec was completed" stands for along a run: that the last thing the operator did to each object it applies
    was to apply what the resource asks for; and what Ready=True therefore says about the cluster. */
module Completion {
  import opened Wrappers
  import opened Fields
  import opened Objects
  import opened LimitadorTypes
  import opened K8sObjects
  import opened Cluster
  import opened Reconcilers
  import opened Controller
  import opened Histories
  import opened Runs
  import opened ReadySoundness
  import opened Convergence
  import opened Idempotence

  predicate About(e: Event, k: Key) {
    (e.AppliedObject? || e.DeletedObject?) && e.key == k
  }

  /** What the operator last applied to `k`; None when it never did, or has deleted it since. */
  function LastApplied(journal: seq<Event>, k: Key): Option<FieldMap> {
    if journal == [] then None
    else
      var e := journal[|journal| - 1];
      if !About(e, k) then LastApplied(journal[..|journal| - 1], k)
      else if e.AppliedObject? then Some(e.fields) else None
  }

  /** Everything `lim` asks to be applied is what the operator last applied. */
  ghost predicate AppliedAll(lim: Limitador, journal: seq<Event>) {
    forall k, fields | Enforce(k, fields) in SpecPlan(lim) :: LastApplied(journal, k) == Some(fields)
  }

  /** At position `i`, all that some version of the resource with generation `g` asks for is what was last applied. */
  ghost predicate CompletedFor(w: World, i: nat, g: nat) {
    i <= |w.journal| && exists r :: Some(r) in w.resource && AskedAt(r, g) && AppliedAll(r.lim, w.journal[..i])
  }

  predicate AskedAt(r: Resource, g: nat) {
    r.lim.generation == g
  }

  /** Every completion in the journal stands for that. */
  ghost predicate CompletionsSound(w: World) {
    forall i | 0 <= i < |w.journal| && w.journal[i].SpecCompleted? :: CompletedFor(w, i, w.journal[i].generation)
  }

  lemma CompletedStays(w: World, x: World, i: nat, g: nat)
    requires w.resource <= x.resource && w.journal <= x.journal && CompletedFor(w, i, g)
    ensures CompletedFor(x, i, g)
  {
    hide AppliedAll;
    assert w.journal[..i] == x.journal[..i];
    var r :| Some(r) in w.resource && AskedAt(r, g) && AppliedAll(r.lim, w.journal[..i]);
    assert Some(r) in x.resource;
  }

  /** Steps that complete nothing. */
  lemma CompletionsStay(w: World, x: World)
    requires CompletionsSound(w) && w.resource <= x.resource && w.journal <= x.journal
    requires forall i | |w.journal| <= i < |x.journal| :: !x.journal[i].SpecCompleted?
    ensures CompletionsSound(x)
  {
    hide CompletedFor;
    forall i | 0 <= i < |x.journal| && x.journal[i].SpecCompleted?
      ensures CompletedFor(x, i, x.journal[i].generation)
    {
      assert x.journal[i] == w.journal[i];
      CompletedStays(w, x, i, w.journal[i].generation);
    }
  }

  lemma RecordsComplete(w: World, x: World, events: iset<Event>)
    requires CompletionsSound(w) && Records(w, x, events) && forall e | e in events :: !e.SpecCompleted?
    ensures CompletionsSound(x) && w.resource <= x.resource && w.journal <= x.journal
  {
    hide CompletionsSound, Sound, KeepsStatus;
    GrowsParts(w, x);
    CompletionsStay(w, x);
  }

  // ---------- the plan ----------

  lemma PerformApplies(w: World, k: Key, fields: FieldMap)
    ensures var done := Perform(w, Enforce(k, fields)); done.1.None? ==> LastApplied(done.0.journal, k) == Some(fields)
  {
    hide Before, Put, Apply;
    var x := Before(w);
    var y := Note(Put(x, k, Apply(StoredContent(x, k), OPERATOR, fields)), AppliedObject(k, fields));
    assert y.journal[|y.journal| - 1] == AppliedObject(k, fields);
  }

  /** Events about other objects leave open nothing about this one. */
  lemma {:induction false} LastAppliedStays(few: seq<Event>, many: seq<Event>, k: Key)
    requires few <= many && forall i | |few| <= i < |many| :: !About(many[i], k)
    ensures LastApplied(many, k) == LastApplied(few, k)
    decreases |many|
  {
    if |few| < |many| {
      LastAppliedStays(few, many[..|many| - 1], k);
    } else {
      assert few == many;
    }
  }

  ghost function NotAbout(k: Key): iset<Event> {
    iset e: Event | !About(e, k)
  }

  lemma RecordsNotAbout(w: World, x: World, events: iset<Event>, k: Key)
    requires Records(w, x, events) && forall e | e in events :: !About(e, k)
    ensures LastApplied(x.journal, k) == LastApplied(w.journal, k)
  {
    hide About, Sound, KeepsStatus;
    GrowsParts(w, x);
    LastAppliedStays(w.journal, x.journal, k);
  }

  /** After a plan without error, in which no two actions are about the same object, each object it enforces was last
      given the enforced fields. */
  lemma {:induction false} ExecApplies(w: World, plan: seq<Action>)
    requires Exec(w, plan).1.None? && Distinct(plan)
    ensures forall k, fields | Enforce(k, fields) in plan ::
      LastApplied(Exec(w, plan).0.journal, k) == Some(fields)
    decreases |plan|
  {
    hide Perform, Records, EventsOf, LastApplied, ActionKey;
    if plan != [] {
      var a, rest := plan[0], plan[1..];
      var done := Perform(w, a);
      DistinctRest(plan);
      ExecApplies(done.0, rest);
      forall k, fields | Enforce(k, fields) in plan
        ensures LastApplied(Exec(w, plan).0.journal, k) == Some(fields)
      {
        if a == Enforce(k, fields) {
          PerformApplies(w, k, fields);
          RestNotAbout(plan, k);
          ExecRecords(done.0, rest, NotAbout(k));
          RecordsNotAbout(done.0, Exec(done.0, rest).0, NotAbout(k), k);
        } else {
          assert Enforce(k, fields) in rest;
        }
      }
    }
  }

  lemma RestNotAbout(plan: seq<Action>, k: Key)
    requires plan != [] && Distinct(plan) && plan[0].Enforce? && plan[0].key == k
    ensures forall a | a in plan[1..] :: EventsOf(a) <= NotAbout(k)
  {
    forall a | a in plan[1..]
      ensures EventsOf(a) <= NotAbout(k)
    {
      var i :| 0 <= i < |plan[1..]| && plan[1..][i] == a;
      assert ActionKey(plan[0]) == Some(k) && plan[i + 1] == a;
      assert ActionKey(plan[0]) != ActionKey(plan[i + 1]);
    }
  }

  // ---------- a reconcile ----------

  lemma NoCompletion(lim: Limitador)
    ensures forall e | e in SpecEvents(lim) || e in PatchEvents(lim) :: !e.SpecCompleted?
  {
  }

  lemma SpecEffectCompletes(w: World, r: Resource)
    requires CompletionsSound(w) && Some(r) in w.resource
    ensures CompletionsSound(SpecEffect(w, r.lim).world)
  {
    hide SpecPlan, Exec, AnnotatePods, Records, CompletionsSound, SpecEvents, PatchEvents, Ordinary, LastApplied;
    var lim := r.lim;
    NoCompletion(lim);
    var plan := Exec(w, SpecPlan(lim));
    SpecExecRecords(w, lim);
    RecordsComplete(w, plan.0, SpecEvents(lim));
    var pods := AnnotatePods(plan.0, lim);
    AnnotateRecords(plan.0, lim);
    RecordsComplete(plan.0, pods.world, PatchEvents(lim));
    if plan.1.None? && pods.error.None? {
      SpecPlanOrdinary(lim);
      ExecApplies(w, SpecPlan(lim));
      PodsLeaveApplied(plan.0, lim);
      CompletionNoted(pods.world, r);
    }
  }

  /** The pod step applies to pods only. */
  lemma PodsLeaveApplied(x: World, lim: Limitador)
    ensures forall k, fields | Enforce(k, fields) in SpecPlan(lim) ::
      LastApplied(AnnotatePods(x, lim).world.journal, k) == LastApplied(x.journal, k)
  {
    hide SpecPlan, AnnotatePods, Records, LastApplied;
    AnnotateRecords(x, lim);
    PlannedOrdinary(lim);
    forall k, fields | Enforce(k, fields) in SpecPlan(lim)
      ensures LastApplied(AnnotatePods(x, lim).world.journal, k) == LastApplied(x.journal, k)
    {
      assert Ordinary(Enforce(k, fields));
      RecordsNotAbout(x, AnnotatePods(x, lim).world, PatchEvents(lim), k);
    }
  }

  lemma CompletionNoted(x: World, r: Resource)
    requires CompletionsSound(x) && Some(r) in x.resource && AppliedAll(r.lim, x.journal)
    ensures CompletionsSound(Note(x, SpecCompleted(r.lim.generation)))
  {
    hide AppliedAll;
    var y := Note(x, SpecCompleted(r.lim.generation));
    assert y.journal[..|x.journal|] == x.journal;
    assert AskedAt(r, r.lim.generation);
    forall i | 0 <= i < |y.journal| && y.journal[i].SpecCompleted?
      ensures CompletedFor(y, i, y.journal[i].generation)
    {
      if i < |x.journal| {
        assert y.journal[i] == x.journal[i];
        CompletedStays(x, y, i, x.journal[i].generation);
      }
    }
  }

  lemma ReconcileCompletes(w: World)
    requires Sound(w) && CompletionsSound(w)
    ensures CompletionsSound(ReconcileEffect(w).world)
  {
    hide GetLimitador, SpecEffect, StatusEffect, Sound, CompletionsSound, Grows, Extends, Records, Allowed, ReadAt;
    var got := GetLimitador(w);
    GetLimitadorPasses(w);
    PassesComplete(w, got.0);
    if got.1.Ok? && !got.1.value.deleting {
      var lim := got.1.value;
      ReadIsStored(w, lim);
      var r :| Some(r) in got.0.resource && r.lim == lim;
      SpecEffectCompletes(got.0, r);
      var x := SpecEffect(got.0, lim);
      ReadResult(w, lim);
      PassesSound(w, got.0);
      SpecEffectRecords(got.0, lim);
      StatusEffectExtends(got.0, x.world, lim, x.error);
      var y := StatusEffect(x.world, lim, x.error).0;
      ExtendsGrows(x.world, y, Allowed(lim));
      GrowsParts(x.world, y);
      StatusEffectEvents(x.world, lim, x.error);
      CompletionsStay(x.world, y);
    }
  }

  lemma PassesComplete(w: World, x: World)
    requires Passes(w, x) && CompletionsSound(w)
    ensures CompletionsSound(x)
  {
    hide CompletionsSound, Sound;
    CompletionsStay(w, x);
  }

  // ---------- along a run ----------

  /** Along any run, whatever fails, whoever interferes and however the cache lags: each time the operator counted a
      spec as completed for a generation, what it had last applied to each object was what a version of the resource
      with that generation asks for. */
  lemma {:induction false} CompletionMeansApplied(w: World, n: nat)
    requires Sound(w) && CompletionsSound(w)
    ensures CompletionsSound(Run(w, n))
  {
    hide Sound, CompletionsSound, ReconcileEffect, Grows;
    if n > 0 {
      RunSound(w, n - 1);
      CompletionMeansApplied(w, n - 1);
      ReconcileCompletes(Run(w, n - 1));
    }
  }

  /** Position `j` of the journal is a write of Ready=True for `g`; the event before it saw a stored and available
      version of the Deployment; and before that, what the operator had last applied to each object was what a version
      of the resource with generation `g` asks for. */
  ghost predicate WrittenOnEvidence(w: World, dep: Key, j: int, g: int) {
    && 2 <= j < |w.journal| && 0 <= g
    && WroteFor(w.journal[j], g) && ReadyTrue(w.journal[j].status)
    && SawAvailable(w.journal[j - 1], Versions(w, dep))
    && CompletedFor(w, j - 2, g)
  }

  /** What Ready=True says about the cluster: whenever it was stored with observed generation `g`, the operator had
      written it right after it had seen an available version of the Deployment that was stored, and right after it had
      given every object what a version with that generation asks for. */
  lemma ReadyMeansApplied(w: World, n: nat, first: Resource, m: nat)
    requires Sound(w) && w.resource != [] && w.resource[0] == Some(first)
    requires ReadySound(w, DeploymentKey(first.lim)) && CompletionsSound(w)
    requires var rs := Run(w, n).resource; m < |rs| && rs[m].Some? && ReadyTrue(rs[m].value.lim.status)
    ensures var x := Run(w, n); var g := x.resource[m].value.lim.status.observedGeneration;
      exists j :: WrittenOnEvidence(x, DeploymentKey(first.lim), j, g)
  {
    hide Run, Sound, CompletedFor, SawAvailable, ReadyTrue;
    var x, dep := Run(w, n), DeploymentKey(first.lim);
    ReadyIsSound(w, n, first);
    CompletionMeansApplied(w, n);
    var g := x.resource[m].value.lim.status.observedGeneration;
    assert WrittenReady(x, g);
    var j :| 0 <= j < |x.journal| && WroteFor(x.journal[j], g) && ReadyTrue(x.journal[j].status);
    assert Evidence(x, dep, j, g);
    assert WrittenOnEvidence(x, dep, j, g);
  }
}
