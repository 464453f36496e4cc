/** When the Ready condition last changed: the transition times the operator writes along a whole run, each run seeing
    the status as it is stored. */
module ConditionHistory {
  import opened Wrappers
  import opened Objects
  import opened LimitadorTypes
  import opened StatusConditions
  import opened K8sObjects
  import opened Cluster
  import opened Reconcilers
  import opened Controller
  import opened Histories
  import opened Runs
  import opened ReadySoundness

  /** A Ready condition the operator wrote, and when it computed it. */
  datatype ReadyWrite = ReadyWrite(condition: Condition, at: nat)

  function ReadyWritesOf(e: Event): seq<ReadyWrite> {
    if e.WroteStatus? && ReadyConditions(e.status.conditions) != []
    then [ReadyWrite(ReadyConditions(e.status.conditions)[0], e.at)] else []
  }

  function ReadyWrites(journal: seq<Event>): seq<ReadyWrite> {
    if journal == [] then []
    else ReadyWrites(journal[..|journal| - 1]) + ReadyWritesOf(journal[|journal| - 1])
  }

  /** The time of the last write, up to and including the `i`-th, at which Ready was set for the first time or its
      status value flipped. */
  function LastFlip(ws: seq<ReadyWrite>, i: nat): nat
    requires i < |ws|
  {
    if i == 0 || ws[i - 1].condition.status != ws[i].condition.status then ws[i].at else LastFlip(ws, i - 1)
  }

  ghost predicate Timed(ws: seq<ReadyWrite>) {
    forall i | 0 <= i < |ws| :: ws[i].condition.lastTransitionTime == LastFlip(ws, i)
  }

  function LastWritten(ws: seq<ReadyWrite>): seq<Condition> {
    if ws == [] then [] else [ws[|ws| - 1].condition]
  }

  /** The stored Ready condition is the last one written, and all transition times are right. */
  ghost predicate TransitionsSound(w: World) {
    && Timed(ReadyWrites(w.journal))
    && (StoredResource(w).Some? ==>
          ReadyConditions(StoredResource(w).value.lim.status.conditions) == LastWritten(ReadyWrites(w.journal)))
  }

  lemma {:induction false} LastFlipPrefix(ws: seq<ReadyWrite>, more: ReadyWrite, i: nat)
    requires i < |ws|
    ensures LastFlip(ws + [more], i) == LastFlip(ws, i)
  {
    if i > 0 {
      LastFlipPrefix(ws, more, i - 1);
    }
  }

  lemma TimedAppend(ws: seq<ReadyWrite>, more: ReadyWrite)
    requires Timed(ws)
    requires more.condition.lastTransitionTime ==
      if ws == [] || ws[|ws| - 1].condition.status != more.condition.status then more.at
      else ws[|ws| - 1].condition.lastTransitionTime
    ensures Timed(ws + [more])
  {
    var all := ws + [more];
    forall i | 0 <= i < |all|
      ensures all[i].condition.lastTransitionTime == LastFlip(all, i)
    {
      if i < |ws| {
        LastFlipPrefix(ws, more, i);
        assert all[i] == ws[i];
      } else if i > 0 {
        LastFlipPrefix(ws, more, i - 1);
        assert all[i] == more && all[i - 1] == ws[i - 1];
      }
    }
  }

  lemma {:induction false} NoReadyWrites(journal: seq<Event>, n: nat)
    requires n <= |journal| && forall i | n <= i < |journal| :: !journal[i].WroteStatus?
    ensures ReadyWrites(journal) == ReadyWrites(journal[..n])
  {
    if n == |journal| {
      assert journal[..n] == journal;
    } else {
      var front := journal[..|journal| - 1];
      NoReadyWrites(front, n);
      assert front[..n] == journal[..n];
    }
  }

  lemma TransitionsStay(w: World, x: World)
    requires TransitionsSound(w) && w.journal <= x.journal && KeepsStatus(w, x)
    requires forall i | |w.journal| <= i < |x.journal| :: !x.journal[i].WroteStatus?
    ensures TransitionsSound(x) && ReadyWrites(x.journal) == ReadyWrites(w.journal)
  {
    NoReadyWrites(x.journal, |w.journal|);
    assert x.journal[..|w.journal|] == w.journal;
    if StoredResource(x).Some? {
      if |x.resource| > |w.resource| {
        assert x.resource[|x.resource| - 1] == StoredResource(x);
      } else {
        assert x.resource == w.resource;
      }
    }
  }

  lemma RecordsTransitions(w: World, x: World, events: iset<Event>)
    requires Records(w, x, events) && TransitionsSound(w)
    requires forall e | e in events :: !e.WroteStatus?
    ensures TransitionsSound(x) && KeepsStatus(w, x)
  {
    hide TransitionsSound, KeepsStatus, Sound;
    GrowsParts(w, x);
    TransitionsStay(w, x);
  }

  lemma PassesTransitions(w: World, x: World)
    requires Passes(w, x) && TransitionsSound(w)
    ensures TransitionsSound(x) && KeepsStatus(w, x)
  {
    hide TransitionsSound, KeepsStatus, Sound;
    TransitionsStay(w, x);
  }

  lemma WriteIsTimed(ws: seq<ReadyWrite>, cs: seq<Condition>, c: Condition, now: nat)
    requires Timed(ws) && UniqueTypes(cs) && LastWritten(ws) == ReadyConditions(cs)
    requires c.conditionType == READY && c.lastTransitionTime == 0
    ensures Timed(ws + [ReadyWrite(ReadyAfter(cs, c, now), now)])
  {
    hide Timed;
    ReadyIsTheIndexed(cs);
    var more := ReadyWrite(ReadyAfter(cs, c, now), now);
    if ws != [] {
      assert ReadyConditions(cs)[0] == ws[|ws| - 1].condition;
    }
    TimedAppend(ws, more);
  }

  lemma WriteInJournal(x: World, y: World, cs: seq<Condition>, c: Condition, status: LimitadorStatus, now: nat)
    requires UniqueTypes(cs) && c.conditionType == READY && status.conditions == SetCondition(cs, c, now)
    requires y.journal == x.journal + [WroteStatus(status, now)]
    ensures ReadyWrites(y.journal) == ReadyWrites(x.journal) + [ReadyWrite(ReadyAfter(cs, c, now), now)]
  {
    hide SetCondition, ReadyAfter;
    SetLeavesOneReady(cs, c, now);
    assert y.journal[..|y.journal| - 1] == x.journal;
  }

  /** The write itself, of a status computed from conditions whose Ready part is the stored one. */
  lemma ServeStatusTransitions(x: World, cs: seq<Condition>, c: Condition, status: LimitadorStatus, now: nat)
    requires TransitionsSound(x) && UniqueTypes(cs)
    requires StoredResource(x).Some? ==>
      ReadyConditions(StoredResource(x).value.lim.status.conditions) == ReadyConditions(cs)
    requires c.conditionType == READY && c.lastTransitionTime == 0
    requires status.conditions == SetCondition(cs, c, now)
    ensures TransitionsSound(ServeStatus(x, status, now).0)
  {
    hide MergeStatus, HasType, SetCondition, Timed, ReadyAfter, ReadyWrites, ReadyConditions;
    if StoredResource(x).Some? {
      var y := ServeStatus(x, status, now).0;
      var r := StoredResource(x).value;
      SetLeavesOneReady(cs, c, now);
      MergeReady(r, status);
      WriteInJournal(x, y, cs, c, status, now);
      WriteIsTimed(ReadyWrites(x.journal), cs, c, now);
      ServedResource(x, status, now);
    }
  }

  lemma ServedResource(x: World, status: LimitadorStatus, now: nat)
    requires StoredResource(x).Some?
    ensures StoredResource(ServeStatus(x, status, now).0) == Some(MergeStatus(StoredResource(x).value, status))
  {
    hide MergeStatus;
  }

  lemma ReadyConditionUnstamped(w: World, lim: Limitador, specErr: Option<Error>)
    ensures var r := ReadyCondition(w, lim, specErr).1;
      r.Ok? ==> r.value.conditionType == READY && r.value.lastTransitionTime == 0
  {
    hide Get, Unavailability;
  }

  ghost function Checks(): iset<Event> {
    iset e: Event | e.CheckedDeployment?
  }

  lemma ReadyConditionChecks(w: World, lim: Limitador, specErr: Option<Error>)
    ensures Records(w, ReadyCondition(w, lim, specErr).0, Checks())
  {
    hide Records, Before, View, Note;
    SamePasses(w);
    PassesRecords(w, w, Checks());
    BeforePasses(w);
    PassesRecords(w, Before(w), Checks());
    var got := Get(w, DeploymentKey(lim)).1;
    var e := CheckedDeployment(if got.Ok? then Some(got.value) else None);
    NoteRecords(Before(w), e, Checks());
    RecordsTransitive(w, Before(w), Note(Before(w), e), Checks());
  }

  /** `lim` was read from the store at `w`, and no status was written since. */
  ghost predicate StillShows(x: World, lim: Limitador) {
    StoredResource(x).Some? ==>
      ReadyConditions(StoredResource(x).value.lim.status.conditions) == ReadyConditions(lim.status.conditions)
  }

  lemma ShowsStays(w: World, x: World, lim: Limitador)
    requires StillShows(w, lim) && KeepsStatus(w, x)
    ensures StillShows(x, lim)
  {
    if StoredResource(x).Some? {
      if |x.resource| > |w.resource| {
        assert x.resource[|x.resource| - 1] == StoredResource(x);
      } else {
        assert x.resource == w.resource;
      }
    }
  }

  lemma StatusEffectTransitions(w: World, lim: Limitador, specErr: Option<Error>)
    requires TransitionsSound(w) && StillShows(w, lim) && UniqueTypes(lim.status.conditions)
    ensures TransitionsSound(StatusEffect(w, lim, specErr).0)
  {
    hide ReadyCondition, TransitionsSound, StillShows, Before, ServeStatus, Steady, KeepsStatus, Records, Passes;
    var ready := ReadyCondition(w, lim, specErr);
    var x := ready.0;
    ReadyConditionChecks(w, lim, specErr);
    RecordsTransitions(w, x, Checks());
    ShowsStays(w, x, lim);
    if ready.1.Ok? {
      ReadyConditionUnstamped(w, lim, specErr);
      var c := ready.1.value;
      var status := NewStatus(lim, c, x.now);
      var y := Before(x);
      BeforePasses(x);
      PassesTransitions(x, y);
      ShowsStays(x, y, lim);
      ShowsMeans(y, lim);
      ServeStatusTransitions(y, lim.status.conditions, c, status, x.now);
      assert PatchStatus(x, status, x.now).0 == y || PatchStatus(x, status, x.now).0 == ServeStatus(y, status, x.now).0;
    }
  }

  lemma ShowsMeans(y: World, lim: Limitador)
    requires StillShows(y, lim)
    ensures StoredResource(y).Some? ==>
      ReadyConditions(StoredResource(y).value.lim.status.conditions) == ReadyConditions(lim.status.conditions)
  {
  }

  lemma SpecEffectTransitions(w: World, lim: Limitador)
    requires TransitionsSound(w) && StillShows(w, lim)
    ensures TransitionsSound(SpecEffect(w, lim).world) && StillShows(SpecEffect(w, lim).world, lim)
  {
    hide Exec, SpecPlan, AnnotatePods, TransitionsSound, StillShows, Records, NonStatus, KeepsStatus;
    var done := Exec(w, SpecPlan(lim));
    NonStatusNone(lim);
    SpecStagesRecord(w, lim);
    RecordsTransitions(w, done.0, NonStatus(lim));
    ShowsStays(w, done.0, lim);
    var pods := AnnotatePods(done.0, lim);
    SpecStagesRecord(done.0, lim);
    RecordsTransitions(done.0, pods.world, NonStatus(lim));
    ShowsStays(done.0, pods.world, lim);
    var noted := Note(pods.world, SpecCompleted(lim.generation));
    NoteRecords(pods.world, SpecCompleted(lim.generation), NonStatus(lim));
    RecordsTransitions(pods.world, noted, NonStatus(lim));
    ShowsStays(pods.world, noted, lim);
  }

  /** What the next reconcile reads carries the Ready condition that is stored. Reads of other objects may lag. */
  ghost predicate SeesLastStatus(w: World) {
    var got := GetLimitador(w);
    got.1.Ok? ==> StillShows(got.0, got.1.value)
  }

  lemma FreshReadSees(w: World)
    requires !w.lagging
    ensures SeesLastStatus(w)
  {
    hide Before, Passes;
    var x := Before(w);
    BeforePasses(w);
    PassesLagging(w, x);
    assert x.resource[..|x.resource|] == x.resource;
  }

  lemma ReconcileKeepsTransitions(w: World)
    requires Sound(w) && SeesLastStatus(w) && TransitionsSound(w)
    ensures TransitionsSound(ReconcileEffect(w).world)
  {
    hide GetLimitador, SpecEffect, StatusEffect, Sound, TransitionsSound, StillShows, ReadAt, Passes, KeepsStatus;
    var got := GetLimitador(w);
    GetLimitadorPasses(w);
    PassesTransitions(w, got.0);
    PassesSound(w, got.0);
    if got.1.Ok? && !got.1.value.deleting {
      var lim := got.1.value;
      ReadResult(w, lim);
      ReadIsUnique(got.0, lim);
      SpecEffectTransitions(got.0, lim);
      var x := SpecEffect(got.0, lim);
      StatusEffectTransitions(x.world, lim, x.error);
    }
  }

  lemma PassesLagging(w: World, x: World)
    requires Passes(w, x)
    ensures x.lagging == w.lagging
  {
  }

  lemma GrowsLagging(w: World, x: World)
    requires Grows(w, x)
    ensures x.lagging == w.lagging
  {
  }

  /** Along any run in which each reconcile sees the last status write, whatever fails, whoever interferes and however
      reads of other objects lag: every Ready condition the operator wrote carries the time at which Ready was first
      set or its status value last flipped, and the stored one is the last one written. */
  lemma {:induction false} TransitionTimesAreFlips(w: World, n: nat)
    requires Sound(w) && TransitionsSound(w)
    requires forall m: nat | m < n :: SeesLastStatus(Run(w, m))
    ensures TransitionsSound(Run(w, n))
  {
    hide Sound, TransitionsSound, ReconcileEffect, Grows, SeesLastStatus;
    if n == 0 {
      assert Run(w, n) == w;
    } else {
      var x := Run(w, n - 1);
      RunSound(w, n - 1);
      TransitionTimesAreFlips(w, n - 1);
      ReconcileKeepsTransitions(x);
    }
  }

  /** In particular along any run with fresh reads. */
  lemma FreshTimesAreFlips(w: World, n: nat)
    requires Sound(w) && TransitionsSound(w) && !w.lagging
    ensures TransitionsSound(Run(w, n))
  {
    hide Sound, TransitionsSound, Grows, SeesLastStatus, Run;
    forall m: nat | m < n
      ensures SeesLastStatus(Run(w, m))
    {
      RunSound(w, m);
      GrowsLagging(w, Run(w, m));
      FreshReadSees(Run(w, m));
    }
    TransitionTimesAreFlips(w, n);
  }

  // ---------- and when a status write is not seen ----------

  /** A reconcile whose first write is refused goes straight to the status. */
  lemma RefusedAtOnce(w: World, lim: Limitador, m: string)
    requires GetLimitador(w).1 == Ok(lim) && !lim.deleting && lim.status.observedGeneration != lim.generation
    requires var x := GetLimitador(w).0; x.agenda != [] && x.agenda[0] == Turn([], Rejected(m))
    ensures var x := GetLimitador(w).0; var y := x.(agenda := x.agenda[1..]);
      ReconcileEffect(w).world
        == PatchStatus(y, NewStatus(lim, ErrorCondition(Failed(m)), y.now), y.now).0
  {
    hide GetLimitador, PatchStatus, SetCondition, AnnotatePods, ServiceManifest, Manifest.Desired;
    ServiceWellMade(lim);
    ManifestKeys(lim);
    hide SpecPlan;
    SpecPlanStages(GetLimitador(w).0, lim);
  }

  /** A new resource whose first version is all the cache ever shows; the service of two reconciles is refused, the
      second at a later time. */
  function Blinkered(lim: Limitador, refusal: string): World {
    World(map[], map[], [Some(Resource(lim, {}, {}))], 1, [], 0, 5, true,
          [Turn([], NoFault), Turn([], Rejected(refusal)), Turn([], NoFault),
           Turn([Tick], NoFault), Turn([], Rejected(refusal))], [])
  }

  /** What a refused reconcile writes about a resource that has no status yet. */
  function Refusal(lim: Limitador, m: string, now: nat): LimitadorStatus {
    NewStatus(lim, ErrorCondition(Failed(m)), now)
  }

  lemma RefusalConditions(lim: Limitador, m: string, now: nat)
    requires lim.status == LimitadorStatus(0, [], None)
    ensures Refusal(lim, m, now).conditions == [ErrorCondition(Failed(m)).(lastTransitionTime := now)]
    ensures Refusal(lim, m, now).observedGeneration == lim.generation
  {
  }

  lemma FirstBlink(lim: Limitador, m: string)
    requires lim.status == LimitadorStatus(0, [], None) && lim.generation > 0 && !lim.deleting
    ensures var w := Blinkered(lim, m); var s := Refusal(lim, m, 5); var r := Resource(lim, {}, {});
      ReconcileEffect(w).world == w.(agenda := w.agenda[3..], resource := [Some(r), Some(MergeStatus(r, s))],
                                     journal := [WroteStatus(s, 5)])
  {
    hide ReconcileEffect, MergeStatus, NewStatus;
    var w, r, s := Blinkered(lim, m), Resource(lim, {}, {}), Refusal(lim, m, 5);
    assert w.resource[..1] == w.resource;
    assert EnvSteps(w.(agenda := w.agenda[1..]), []) == w.(agenda := w.agenda[1..]);
    assert GetLimitador(w) == (w.(agenda := w.agenda[1..]), Ok(lim));
    RefusedAtOnce(w, lim, m);
    MergeFacts(r, s);
    RefusalGeneration(lim, m, 5);
    var y := w.(agenda := w.agenda[2..]);
    assert w.agenda[1..][1..] == w.agenda[2..] && y.agenda[1..] == w.agenda[3..];
    assert Before(y) == y.(agenda := y.agenda[1..]);
  }

  lemma RefusalGeneration(lim: Limitador, m: string, now: nat)
    ensures Refusal(lim, m, now).observedGeneration == lim.generation
  {
  }

  lemma SecondBlink(lim: Limitador, m: string)
    requires lim.status == LimitadorStatus(0, [], None) && lim.generation > 0 && !lim.deleting
    ensures var x := Run(Blinkered(lim, m), 2);
      x.journal == [WroteStatus(Refusal(lim, m, 5), 5), WroteStatus(Refusal(lim, m, 6), 6)]
    ensures var x := Run(Blinkered(lim, m), 1);
      GetLimitador(x).1 == Ok(lim) &&
      StoredResource(GetLimitador(x).0) == Some(MergeStatus(Resource(lim, {}, {}), Refusal(lim, m, 5)))
  {
    hide ReconcileEffect, MergeStatus, NewStatus;
    var w, r, s := Blinkered(lim, m), Resource(lim, {}, {}), Refusal(lim, m, 5);
    FirstBlink(lim, m);
    assert Run(w, 0) == w;
    var x := Run(w, 1);
    assert x == ReconcileEffect(w).world;
    assert x.agenda == [Turn([Tick], NoFault), Turn([], Rejected(m))];
    var ticked := x.(agenda := x.agenda[1..], now := 6);
    assert [Tick][1..] == [];
    assert EnvSteps(x.(agenda := x.agenda[1..]), [Tick]) == EnvSteps(ticked, []) == ticked;
    assert x.resource[..1] == [Some(r)];
    assert GetLimitador(x) == (ticked, Ok(lim));
    RefusedAtOnce(x, lim, m);
    var y := ticked.(agenda := []);
    assert ticked.agenda[1..] == [] && Before(y) == y;
    assert Run(w, 2) == ReconcileEffect(x).world;
  }

  /** Then the second reconcile does not see that Ready=False is stored already, and writes it as if it were new: the
      premise of the theorem cannot be dropped. */
  lemma StaleStatusMistimes(lim: Limitador, m: string)
    requires lim.status == LimitadorStatus(0, [], None) && lim.generation > 0 && !lim.deleting
    ensures var w := Blinkered(lim, m);
      && Sound(w) && TransitionsSound(w)
      && !SeesLastStatus(Run(w, 1)) && !TransitionsSound(Run(w, 2))
  {
    hide Run, ReconcileEffect, MergeStatus, NewStatus, GetLimitador;
    var w, r, s, t := Blinkered(lim, m), Resource(lim, {}, {}), Refusal(lim, m, 5), Refusal(lim, m, 6);
    RefusalConditions(lim, m, 5);
    RefusalConditions(lim, m, 6);
    SecondBlink(lim, m);
    var j := Run(w, 2).journal;
    assert s.conditions[1..] == [] && t.conditions[1..] == [];
    assert ReadyWritesOf(j[0]) == [ReadyWrite(s.conditions[0], 5)];
    assert ReadyWritesOf(j[1]) == [ReadyWrite(t.conditions[0], 6)];
    assert j[..1] == [j[0]] && j[..1][..0] == [];
    assert ReadyWrites(j[..1]) == ReadyWritesOf(j[0]);
    assert ReadyWrites(j) == [ReadyWrite(s.conditions[0], 5), ReadyWrite(t.conditions[0], 6)];
    assert LastFlip(ReadyWrites(j), 1) == LastFlip(ReadyWrites(j), 0) == 5;
    assert ReadyWrites(j)[1].condition.lastTransitionTime == 6;
    MergedRefusal(r, s);
  }

  lemma MergedRefusal(r: Resource, s: LimitadorStatus)
    requires |s.conditions| == 1 && s.conditions[0].conditionType == READY
    ensures ReadyConditions(MergeStatus(r, s).lim.status.conditions) == [s.conditions[0]]
  {
    MergeReady(r, s);
  }

  // ---------- what a status write leaves alone ----------

  /** A status write keeps the types unique, and of the conditions of other types exactly these are there afterwards:
      those the operator read, with the values it read, so that what another controller changed in the meantime is
      forced back; and those stored in the meantime of a type the operator did not read, unless it alone had listed
      that type in its last write. */
  lemma StatusWriteExactly(r: Resource, lim: Limitador, ready: Condition, now: nat)
    requires UniqueTypes(r.lim.status.conditions) && UniqueTypes(lim.status.conditions) && ready.conditionType == READY
    ensures var written := MergeStatus(r, NewStatus(lim, ready, now)).lim.status.conditions;
      && UniqueTypes(written)
      && forall c: Condition | c.conditionType != READY :: c in written <==>
           || c in lim.status.conditions
           || (&& c in r.lim.status.conditions && !HasType(lim.status.conditions, c.conditionType)
               && c.conditionType !in r.listed - r.foreign)
  {
    hide SetCondition;
    var status := NewStatus(lim, ready, now);
    SetConditionKeepsOthers(lim.status.conditions, ready, now);
    MergeKeepsUnique(r, status);
    var listed := TypesOf(status.conditions);
    var dropped := r.listed - listed - r.foreign;
    KeptIsKept(r.lim.status.conditions, status.conditions, dropped);
    forall t: string | t != READY
      ensures HasType(status.conditions, t) <==> HasType(lim.status.conditions, t)
      ensures t in listed <==> HasType(status.conditions, t)
    {
      SameTypes(lim.status.conditions, status.conditions, t);
      if t in listed {
        var c :| c in status.conditions && c.conditionType == t;
      }
    }
    var kept := KeptConditions(r.lim.status.conditions, status.conditions, dropped);
    assert MergeStatus(r, status).lim.status.conditions == status.conditions + kept;
  }

  lemma SameTypes(cs: seq<Condition>, ds: seq<Condition>, t: string)
    requires forall c: Condition | c.conditionType == t :: c in ds <==> c in cs
    ensures HasType(ds, t) <==> HasType(cs, t)
  {
  }
}
