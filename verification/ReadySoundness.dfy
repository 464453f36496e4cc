/** What the Ready condition promises, over every run and however the cache lags. */
module ReadySoundness {
  import opened Wrappers
  import opened Fields
  import opened Objects
  import opened LimitadorTypes
  import opened StatusConditions
  import opened K8sObjects
  import opened Cluster
  import opened Reconcilers
  import opened Controller
  import opened Histories
  import opened Runs
  import opened Annotations

  // ---------- one run ----------

  /** All availability tests, said independently of the order in which the operator makes them. */
  ghost predicate Available(d: Object) {
    && d.status.observedGeneration == d.generation
    && (exists i | 0 <= i < |d.status.conditions| ::
          d.status.conditions[i].status == True && IsFirst(d.status.conditions, AVAILABLE, i))
    && d.status.unavailableReplicas == 0
    && d.status.readyReplicas == d.status.replicas
  }

  predicate IsFirst(cs: seq<DeploymentCondition>, t: string, i: nat)
    requires i < |cs|
  {
    cs[i].conditionType == t && forall j | 0 <= j < i :: cs[j].conditionType != t
  }

  /** The search finds the first condition of the type, and finds none only when there is none. */
  lemma {:induction false} FirstConditionIsFirst(cs: seq<DeploymentCondition>, t: string)
    ensures FirstCondition(cs, t).None? <==> forall j | 0 <= j < |cs| :: cs[j].conditionType != t
    ensures forall c :: FirstCondition(cs, t) == Some(c) <==>
      exists i | 0 <= i < |cs| :: cs[i] == c && IsFirst(cs, t, i)
  {
    if cs != [] && cs[0].conditionType != t {
      FirstConditionIsFirst(cs[1..], t);
      forall c
        ensures FirstCondition(cs, t) == Some(c) <==>
          exists i | 0 <= i < |cs| :: cs[i] == c && IsFirst(cs, t, i)
      {
        if FirstCondition(cs, t) == Some(c) {
          var i :| 0 <= i < |cs[1..]| && cs[1..][i] == c && IsFirst(cs[1..], t, i);
          assert cs[i + 1] == c;
          forall j | 0 <= j < i + 1
            ensures cs[j].conditionType != t
          {
            if j > 0 {
              assert cs[1..][j - 1] == cs[j];
            }
          }
        }
        if i :| 0 <= i < |cs| && cs[i] == c && IsFirst(cs, t, i) {
          assert cs[1..][i - 1] == c;
          assert forall j | 0 <= j < i - 1 :: cs[1..][j] == cs[j + 1];
        }
      }
    }
  }

  lemma AvailableIff(d: Object)
    ensures Unavailability(d).None? <==> Available(d)
  {
    var cs := d.status.conditions;
    FirstConditionIsFirst(cs, AVAILABLE);
    if FirstCondition(cs, AVAILABLE).Some? {
      var c := FirstCondition(cs, AVAILABLE).value;
      assert FirstCondition(cs, AVAILABLE) == Some(c);
    }
  }

  /** When the read does not fail, Ready is True exactly when the spec had no error and the Deployment that the read
      returned passes all availability tests; with a fresh cache that is the stored Deployment. */
  lemma ReadyExactly(w: World, lim: Limitador, specErr: Option<Error>)
    requires FaultOf(w) == NoFault
    ensures var r := ReadyCondition(w, lim, specErr).1; var d := View(Before(w), DeploymentKey(lim));
      && r.Ok? && r.value.conditionType == READY
      && (r.value.status == True <==> specErr.None? && d.Some? && Available(d.value))
      && (specErr.Some? ==> r.value.message == specErr.value.message)
    ensures var x := Before(w); var k := DeploymentKey(lim);
      !x.lagging && Stored(x, k).Some? && HasAppLabel(Stored(x, k).value.content) ==> View(x, k) == Stored(x, k)
  {
    hide Before, Available, Unavailability, HasAppLabel;
    var x := Before(w);
    var d := View(x, DeploymentKey(lim));
    if d.Some? {
      AvailableIff(d.value);
    }
    assert Versions(x, DeploymentKey(lim))[..|Versions(x, DeploymentKey(lim))|] == Versions(x, DeploymentKey(lim));
  }

  // ---------- evidence ----------

  ghost predicate ReadyTrue(status: LimitadorStatus) {
    exists c :: c in ReadyConditions(status.conditions) && c.status == True
  }

  ghost predicate SawAvailable(e: Event, versions: seq<Option<Object>>) {
    e.CheckedDeployment? && e.deployment.Some? && Available(e.deployment.value) && e.deployment in versions
  }

  /** The two events right before position `j` of the journal: every spec step was completed for generation `g`, and
      then, with nothing done in between, the operator saw a version of the Deployment that was really stored and passed
      all the tests. */
  ghost predicate Evidence(w: World, dep: Key, j: int, g: int) {
    && 2 <= j <= |w.journal|
    && w.journal[j - 2].SpecCompleted? && w.journal[j - 2].generation == g
    && SawAvailable(w.journal[j - 1], Versions(w, dep))
  }

  predicate WroteFor(e: Event, g: int) {
    e.WroteStatus? && e.status.observedGeneration == g
  }

  ghost predicate ReadySound(w: World, dep: Key) {
    && (forall j | 0 <= j < |w.journal| && w.journal[j].WroteStatus? && ReadyTrue(w.journal[j].status) ::
          Evidence(w, dep, j, w.journal[j].status.observedGeneration))
    && (forall n | 0 <= n < |w.resource| && w.resource[n].Some? && ReadyTrue(w.resource[n].value.lim.status) ::
          WrittenReady(w, w.resource[n].value.lim.status.observedGeneration))
  }

  /** The operator wrote Ready=True for generation `g`. */
  ghost predicate WrittenReady(w: World, g: int) {
    exists j | 0 <= j < |w.journal| :: WroteFor(w.journal[j], g) && ReadyTrue(w.journal[j].status)
  }

  lemma EvidenceStays(w: World, x: World, dep: Key, j: int, g: int)
    requires Grows(w, x) && Evidence(w, dep, j, g)
    ensures Evidence(x, dep, j, g)
  {
    hide SawAvailable;
    assert Versions(w, dep) <= Versions(x, dep);
    SawStays(w.journal[j - 1], Versions(w, dep), Versions(x, dep));
    assert x.journal[j - 2] == w.journal[j - 2] && x.journal[j - 1] == w.journal[j - 1];
  }

  lemma SawStays(e: Event, few: seq<Option<Object>>, many: seq<Option<Object>>)
    requires few <= many && SawAvailable(e, few)
    ensures SawAvailable(e, many)
  {
    hide Available;
    var i :| 0 <= i < |few| && few[i] == e.deployment;
    assert many[i] == e.deployment;
  }

  lemma WrittenStays(w: World, x: World, g: int)
    requires w.journal <= x.journal && WrittenReady(w, g)
    ensures WrittenReady(x, g)
  {
    hide ReadyTrue;
    var j :| 0 <= j < |w.journal| && WroteFor(w.journal[j], g) && ReadyTrue(w.journal[j].status);
    assert x.journal[j] == w.journal[j];
  }

  /** Steps that write no status. */
  lemma ReadyStays(w: World, x: World, dep: Key)
    requires ReadySound(w, dep) && Grows(w, x) && KeepsStatus(w, x)
    requires forall i | |w.journal| <= i < |x.journal| :: !x.journal[i].WroteStatus?
    ensures ReadySound(x, dep)
  {
    hide Evidence, WrittenReady;
    GrowsParts(w, x);
    forall j | 0 <= j < |x.journal| && x.journal[j].WroteStatus? && ReadyTrue(x.journal[j].status)
      ensures Evidence(x, dep, j, x.journal[j].status.observedGeneration)
    {
      assert x.journal[j] == w.journal[j];
      EvidenceStays(w, x, dep, j, w.journal[j].status.observedGeneration);
    }
    forall n | 0 <= n < |x.resource| && x.resource[n].Some? && ReadyTrue(x.resource[n].value.lim.status)
      ensures WrittenReady(x, x.resource[n].value.lim.status.observedGeneration)
    {
      var m := if n < |w.resource| then n else |w.resource| - 1;
      if n < |w.resource| {
        assert x.resource[n] == w.resource[n];
      } else {
        assert SameOperatorStatus(StoredResource(w).value.lim, x.resource[n].value.lim);
        assert w.resource[m] == StoredResource(w);
      }
      assert ReadyTrue(w.resource[m].value.lim.status);
      WrittenStays(w, x, w.resource[m].value.lim.status.observedGeneration);
    }
  }

  // ---------- what a status write says ----------

  lemma {:induction false} ReadyConcat(a: seq<Condition>, b: seq<Condition>)
    ensures ReadyConditions(a + b) == ReadyConditions(a) + ReadyConditions(b)
  {
    if a == [] {
      assert a + b == b;
    } else {
      assert (a + b)[1..] == a[1..] + b;
      ReadyConcat(a[1..], b);
    }
  }

  lemma {:induction false} NoneReady(cs: seq<Condition>)
    requires forall c | c in cs :: c.conditionType != READY
    ensures ReadyConditions(cs) == []
  {
    if cs != [] {
      NoneReady(cs[1..]);
    }
  }

  /** With unique types there is at most one Ready condition, the one the search finds. */
  lemma {:induction false} ReadyIsTheIndexed(cs: seq<Condition>)
    requires UniqueTypes(cs)
    ensures var i := IndexOf(cs, READY); ReadyConditions(cs) == if i == |cs| then [] else [cs[i]]
  {
    if cs == [] {
    } else if cs[0].conditionType == READY {
      NoneReady(cs[1..]);
    } else {
      ReadyIsTheIndexed(cs[1..]);
    }
  }

  /** The Ready condition that `SetCondition` leaves. */
  function ReadyAfter(cs: seq<Condition>, c: Condition, now: nat): Condition {
    var i := IndexOf(cs, READY);
    if i == |cs| then c.(lastTransitionTime := Stamped(c, now)) else Overlay(cs[i], c, now)
  }

  lemma SetLeavesOneReady(cs: seq<Condition>, c: Condition, now: nat)
    requires UniqueTypes(cs) && c.conditionType == READY
    ensures ReadyConditions(SetCondition(cs, c, now)) == [ReadyAfter(cs, c, now)]
    ensures HasType(SetCondition(cs, c, now), READY)
  {
    var r := SetCondition(cs, c, now);
    SetConditionKeepsOthers(cs, c, now);
    ReadyIsTheIndexed(r);
    var i := IndexOf(cs, READY);
    assert r[i] == ReadyAfter(cs, c, now) && r[i].conditionType == READY;
    assert r[i] in r;
    assert IndexOf(r, READY) == i;
  }

  lemma MergeReady(r: Resource, status: LimitadorStatus)
    requires HasType(status.conditions, READY)
    ensures ReadyConditions(MergeStatus(r, status).lim.status.conditions) == ReadyConditions(status.conditions)
  {
    var dropped := r.listed - TypesOf(status.conditions) - r.foreign;
    var kept := KeptConditions(r.lim.status.conditions, status.conditions, dropped);
    KeptIsKept(r.lim.status.conditions, status.conditions, dropped);
    NoneReady(kept);
    ReadyConcat(status.conditions, kept);
  }

  /** The API server takes a status for which the evidence is there. */
  lemma ServeStatusReady(x: World, dep: Key, status: LimitadorStatus, at: nat)
    requires ReadySound(x, dep) && HasType(status.conditions, READY)
    requires ReadyTrue(status) ==> Evidence(x, dep, |x.journal|, status.observedGeneration)
    ensures ReadySound(ServeStatus(x, status, at).0, dep)
  {
    hide Evidence, WrittenReady, MergeStatus;
    var y := ServeStatus(x, status, at).0;
    if StoredResource(x).Some? {
      var r := StoredResource(x).value;
      MergeReady(r, status);
      MergeFacts(r, status);
      assert y.journal == x.journal + [WroteStatus(status, at)];
      assert Versions(y, dep) == Versions(x, dep);
      forall j | 0 <= j < |y.journal| && y.journal[j].WroteStatus? && ReadyTrue(y.journal[j].status)
        ensures Evidence(y, dep, j, y.journal[j].status.observedGeneration)
      {
        EvidenceCopies(x, y, dep, j, y.journal[j].status.observedGeneration);
        if j < |x.journal| {
          assert y.journal[j] == x.journal[j];
        }
      }
      if ReadyTrue(status) {
        WritesReady(y, |x.journal|, status.observedGeneration);
      }
      forall n | 0 <= n < |y.resource| && y.resource[n].Some? && ReadyTrue(y.resource[n].value.lim.status)
        ensures WrittenReady(y, y.resource[n].value.lim.status.observedGeneration)
      {
        if n < |x.resource| {
          assert y.resource[n] == x.resource[n];
          WrittenStays(x, y, x.resource[n].value.lim.status.observedGeneration);
        } else {
          assert y.resource[n] == Some(MergeStatus(r, status));
          assert ReadyTrue(status);
        }
      }
    }
  }

  lemma WritesReady(y: World, j: nat, g: int)
    requires j < |y.journal| && WroteFor(y.journal[j], g) && ReadyTrue(y.journal[j].status)
    ensures WrittenReady(y, g)
  {
  }

  lemma EvidenceCopies(x: World, y: World, dep: Key, j: int, g: int)
    requires x.journal <= y.journal && Versions(x, dep) == Versions(y, dep)
    ensures Evidence(x, dep, j, g) ==> Evidence(y, dep, j, g)
  {
    hide SawAvailable;
    if Evidence(x, dep, j, g) {
      assert y.journal[j - 2] == x.journal[j - 2] && y.journal[j - 1] == x.journal[j - 1];
    }
  }

  lemma PatchStatusReady(x: World, dep: Key, status: LimitadorStatus, at: nat)
    requires ReadySound(x, dep) && HasType(status.conditions, READY)
    requires ReadyTrue(status) ==> Evidence(x, dep, |x.journal|, status.observedGeneration)
    ensures ReadySound(PatchStatus(x, status, at).0, dep)
  {
    hide ReadySound, ReadyTrue, Evidence, Before, ServeStatus, HasType, Passes;
    var y := Before(x);
    BeforePasses(x);
    PassesReady(x, y, dep);
    PassesJournal(x, y);
    if ReadyTrue(status) {
      PassesGrows(x, y);
      EvidenceStays(x, y, dep, |x.journal|, status.observedGeneration);
    }
    ServeStatusReady(y, dep, status, at);
  }

  lemma PassesReady(w: World, x: World, dep: Key)
    requires Passes(w, x) && ReadySound(w, dep)
    ensures ReadySound(x, dep)
  {
    hide ReadySound, Grows, KeepsStatus, Sound;
    ReadyStays(w, x, dep);
  }

  lemma RecordsReady(w: World, x: World, events: iset<Event>, dep: Key)
    requires Records(w, x, events) && ReadySound(w, dep)
    requires forall e | e in events :: !e.WroteStatus?
    ensures ReadySound(x, dep)
  {
    hide ReadySound, Grows, KeepsStatus, Sound;
    ReadyStays(w, x, dep);
  }

  // ---------- one reconcile ----------

  /** The events of the spec steps, pods included. */
  ghost function NonStatus(lim: Limitador): iset<Event> {
    iset e | MayDo(lim, e) && !e.WroteStatus?
  }

  lemma SpecStagesRecord(w: World, lim: Limitador)
    ensures Records(w, Exec(w, SpecPlan(lim)).0, NonStatus(lim))
    ensures Records(w, AnnotatePods(w, lim).world, NonStatus(lim))
  {
    hide Exec, SpecPlan, Records, MayDo, AnnotatePods;
    SpecExecRecords(w, lim);
    RecordsWiden(w, Exec(w, SpecPlan(lim)).0, SpecEvents(lim), NonStatus(lim));
    AnnotateRecords(w, lim);
    PatchEventsContain(lim, 0);
    assert PatchEvents(lim) <= NonStatus(lim);
    RecordsWiden(w, AnnotatePods(w, lim).world, PatchEvents(lim), NonStatus(lim));
  }

  /** An error-free spec ends by recording its completion. */
  lemma SpecEffectReady(w: World, lim: Limitador, dep: Key)
    requires ReadySound(w, dep)
    ensures var x := SpecEffect(w, lim);
      && ReadySound(x.world, dep)
      && (x.error.None? ==>
            x.world.journal != [] && x.world.journal[|x.world.journal| - 1] == SpecCompleted(lim.generation))
  {
    hide Exec, SpecPlan, AnnotatePods, ReadySound, Records, NonStatus;
    var done := Exec(w, SpecPlan(lim));
    SpecStagesRecord(w, lim);
    NonStatusNone(lim);
    RecordsReady(w, done.0, NonStatus(lim), dep);
    var pods := AnnotatePods(done.0, lim);
    SpecStagesRecord(done.0, lim);
    RecordsReady(done.0, pods.world, NonStatus(lim), dep);
    NoteRecords(pods.world, SpecCompleted(lim.generation), NonStatus(lim));
    RecordsReady(pods.world, Note(pods.world, SpecCompleted(lim.generation)), NonStatus(lim), dep);
  }

  lemma NonStatusNone(lim: Limitador)
    ensures forall e | e in NonStatus(lim) :: !e.WroteStatus?
    ensures SpecCompleted(lim.generation) in NonStatus(lim)
  {
    hide SpecPlan;
  }

  lemma ViewIsVersion(w: World, k: Key)
    requires View(w, k).Some?
    ensures View(w, k) in Versions(w, k)
  {
    var vs := Versions(w, k);
    if k.kind == Secret {
      assert vs[|vs| - 1] in vs;
    } else {
      assert vs[..Position(w, k)][Position(w, k) - 1] == vs[Position(w, k) - 1];
    }
  }

  /** Ready=True is computed only with the evidence in the journal. */
  lemma ReadyConditionEvidence(w: World, lim: Limitador, specErr: Option<Error>)
    requires ReadySound(w, DeploymentKey(lim))
    requires specErr.None? ==>
      w.journal != [] && w.journal[|w.journal| - 1] == SpecCompleted(lim.generation)
    ensures var r := ReadyCondition(w, lim, specErr);
      && ReadySound(r.0, DeploymentKey(lim))
      && (r.1.Ok? ==> r.1.value.conditionType == READY)
      && (r.1.Ok? && r.1.value.status == True ==> Evidence(r.0, DeploymentKey(lim), |r.0.journal|, lim.generation))
  {
    hide ReadySound, Before, View, Unavailability, Available, Passes, DeploymentKey;
    var dep := DeploymentKey(lim);
    var x := Before(w);
    BeforePasses(w);
    PassesReady(w, x, dep);
    PassesJournal(w, x);
    var got := Get(w, dep);
    var e := CheckedDeployment(if got.1.Ok? then Some(got.1.value) else None);
    var y := Note(x, e);
    CheckedReady(x, e, dep);
    var r := ReadyCondition(w, lim, specErr);
    if r.1.Ok? && r.1.value.status == True {
      assert r.0 == y && got.1 == Ok(View(x, dep).value);
      ViewIsVersion(x, dep);
      AvailableIff(got.1.value);
      var n := |w.journal|;
      assert y.journal[n - 1] == w.journal[n - 1] && y.journal[n] == e;
      assert Versions(y, dep) == Versions(x, dep);
      assert SawAvailable(y.journal[n], Versions(y, dep));
    }
  }

  lemma CheckedReady(x: World, e: Event, dep: Key)
    requires ReadySound(x, dep) && e.CheckedDeployment?
    ensures ReadySound(Note(x, e), dep)
  {
    hide ReadySound, Records;
    var events := iset{e};
    NoteRecords(x, e, events);
    RecordsReady(x, Note(x, e), events, dep);
  }

  lemma StatusEffectReady(w: World, lim: Limitador, specErr: Option<Error>)
    requires ReadySound(w, DeploymentKey(lim)) && UniqueTypes(lim.status.conditions)
    requires specErr.None? ==>
      w.journal != [] && w.journal[|w.journal| - 1] == SpecCompleted(lim.generation)
    ensures ReadySound(StatusEffect(w, lim, specErr).0, DeploymentKey(lim))
  {
    hide ReadySound, ReadyCondition, PatchStatus, Evidence, DeploymentKey, Steady, HasType;
    var ready := ReadyCondition(w, lim, specErr);
    ReadyConditionEvidence(w, lim, specErr);
    if ready.1.Ok? {
      var c := ready.1.value;
      var status := NewStatus(lim, c, ready.0.now);
      SetLeavesOneReady(lim.status.conditions, c, ready.0.now);
      assert ReadyTrue(status) ==> c.status == True;
      PatchStatusReady(ready.0, DeploymentKey(lim), status, ready.0.now);
    }
  }

  lemma ReconcileKeepsReady(w: World, dep: Key)
    requires Sound(w) && ReadySound(w, dep)
    requires GetLimitador(w).1.Ok? ==> DeploymentKey(GetLimitador(w).1.value) == dep
    ensures ReadySound(ReconcileEffect(w).world, dep)
  {
    hide GetLimitador, SpecEffect, StatusEffect, Sound, ReadySound, ReadAt, DeploymentKey, Passes;
    var got := GetLimitador(w);
    GetLimitadorPasses(w);
    PassesReady(w, got.0, dep);
    PassesSound(w, got.0);
    if got.1.Ok? && !got.1.value.deleting {
      var lim := got.1.value;
      ReadResult(w, lim);
      ReadIsUnique(got.0, lim);
      SpecEffectReady(got.0, lim, dep);
      var x := SpecEffect(got.0, lim);
      StatusEffectReady(x.world, lim, x.error);
    }
  }

  lemma PassesSound(w: World, x: World)
    requires Passes(w, x) && Sound(w)
    ensures Sound(x)
  {
  }

  /** Along any run, whatever fails, whoever interferes and however the cache lags: whenever the stored status ever
      said Ready=True with an observed generation, the operator had written so; and each time it wrote so, the last two
      things it had done were completing every spec step without error for that generation, and then seeing a version
      of the Deployment that was really stored and met every availability test. */
  lemma {:induction false} ReadyIsSound(w: World, n: nat, first: Resource)
    requires Sound(w) && w.resource != [] && w.resource[0] == Some(first)
    requires ReadySound(w, DeploymentKey(first.lim))
    ensures ReadySound(Run(w, n), DeploymentKey(first.lim))
  {
    hide Sound, ReadySound, ReconcileEffect, GetLimitador;
    if n == 0 {
      assert Run(w, n) == w;
    } else {
      var x := Run(w, n - 1);
      RunSound(w, n - 1);
      ReadyIsSound(w, n - 1, first);
      GrowsParts(w, x);
      ReadIdentity(x, first);
      ReconcileKeepsReady(x, DeploymentKey(first.lim));
    }
  }

  /** A start at which nothing was reported ready yet satisfies the premise. */
  lemma UnreadyIsSound(w: World, dep: Key)
    requires w.journal == []
    requires forall n | 0 <= n < |w.resource| && w.resource[n].Some? :: !ReadyTrue(w.resource[n].value.lim.status)
    ensures ReadySound(w, dep) && AnnotationsSound(w, dep)
  {
  }

  /** After an apply that changes the spec of a Deployment, and until the deployment controller has reported on it, the
      stored Deployment does not count as available. */
  lemma ChangedSpecIsUnavailable(w: World, k: Key, c: Content)
    requires Stored(w, k).Some? && Stored(w, k).value.status.observedGeneration <= Stored(w, k).value.generation
    requires SpecFields(c.fields) != SpecFields(Stored(w, k).value.content.fields)
    ensures Stored(Put(w, k, c), k).Some? && !Available(Stored(Put(w, k, c), k).value)
  {
    hide SpecFields;
    assert Versions(Put(w, k, c), k) == Versions(w, k) + [Some(NextObject(w, k, c))];
  }
}
