/** What every step, of the operator or of anybody else, keeps: histories only grow, versions increase, the cache
    moves forward, generations never go back. */
module Histories {
  import opened Wrappers
  import opened Fields
  import opened Objects
  import opened LimitadorTypes
  import opened StatusConditions
  import opened Cluster
  import opened Reconcilers

  // ---------- growth ----------

  ghost predicate Grows(w: World, x: World) {
    && (forall k: Key :: Versions(w, k) <= Versions(x, k))
    && (forall k: Key :: Position(w, k) <= Position(x, k))
    && w.resource <= x.resource
    && ResourcePosition(w) <= ResourcePosition(x)
    && w.journal <= x.journal
    && w.clock <= x.clock
    && w.now <= x.now
    && w.lagging == x.lagging
  }

  lemma GrowsTransitive(w: World, x: World, y: World)
    requires Grows(w, x) && Grows(x, y)
    ensures Grows(w, y)
  {
    forall k: Key
      ensures Versions(w, k) <= Versions(y, k) && Position(w, k) <= Position(y, k)
    {
      assert Versions(w, k) <= Versions(x, k) && Position(w, k) <= Position(x, k);
      assert Versions(x, k) <= Versions(y, k) && Position(x, k) <= Position(y, k);
    }
  }

  // ---------- soundness of the histories ----------

  /** Versions of one object increase along its history and never exceed the last version handed out. */
  ghost predicate Ordered(h: seq<Option<Object>>, clock: nat) {
    && (forall i | 0 <= i < |h| :: h[i].Some? ==> h[i].value.version <= clock)
    && (forall i, j | 0 <= i < j < |h| :: h[i].Some? && h[j].Some? ==> h[i].value.version < h[j].value.version)
  }

  /** One lifetime of one custom resource: generation and observed generation never decrease, the observed one never
      exceeds the generation, condition types are unique, the identity stays, and once removed it stays removed. */
  ghost predicate ResourcesOrdered(rs: seq<Option<Resource>>) {
    && (forall i | 0 <= i < |rs| :: rs[i].Some? ==>
          && rs[i].value.lim.status.observedGeneration <= rs[i].value.lim.generation
          && UniqueTypes(rs[i].value.lim.status.conditions))
    && (forall i, j | 0 <= i < j < |rs| :: rs[j].Some? ==> rs[i].Some? && NoLater(rs[i].value.lim, rs[j].value.lim))
  }

  predicate NoLater(a: Limitador, b: Limitador) {
    && a.generation <= b.generation
    && a.status.observedGeneration <= b.status.observedGeneration
    && a.namespace == b.namespace && a.name == b.name
  }

  /** Whatever the cache may still show of the resource is at least as new as the last status the operator wrote. */
  ghost predicate NoStaleRead(w: World) {
    StoredResource(w).Some? ==>
      forall i | ResourcePosition(w) - 1 <= i < |w.resource| && 0 <= i :: w.resource[i].Some? ==>
        StoredResource(w).value.lim.status.observedGeneration <= w.resource[i].value.lim.generation
  }

  ghost predicate Sound(w: World) {
    && (forall k: Key :: Ordered(Versions(w, k), w.clock))
    && ResourcesOrdered(w.resource)
    && NoStaleRead(w)
  }

  /** The part of the status that only the operator writes. */
  function ReadyConditions(cs: seq<Condition>): seq<Condition> {
    if cs == [] then []
    else (if cs[0].conditionType == READY then [cs[0]] else []) + ReadyConditions(cs[1..])
  }

  ghost predicate SameOperatorStatus(a: Limitador, b: Limitador) {
    && a.status.observedGeneration == b.status.observedGeneration
    && ReadyConditions(a.status.conditions) == ReadyConditions(b.status.conditions)
  }

  /** Every version of the resource added on the way from `w` to `x` carries the operator's status of `w`. */
  ghost predicate KeepsStatus(w: World, x: World) {
    && w.resource <= x.resource
    && forall i | |w.resource| <= i < |x.resource| && x.resource[i].Some? ::
      StoredResource(w).Some? && SameOperatorStatus(StoredResource(w).value.lim, x.resource[i].value.lim)
  }

  lemma KeepsStatusTransitive(w: World, x: World, y: World)
    requires KeepsStatus(w, x) && KeepsStatus(x, y)
    ensures KeepsStatus(w, y)
  {
    forall i | |w.resource| <= i < |y.resource| && y.resource[i].Some?
      ensures StoredResource(w).Some? && SameOperatorStatus(StoredResource(w).value.lim, y.resource[i].value.lim)
    {
      if i < |x.resource| {
        assert y.resource[i] == x.resource[i];
      } else if |x.resource| > |w.resource| {
        assert StoredResource(x) == x.resource[|x.resource| - 1];
      } else {
        assert x.resource == w.resource;
      }
    }
  }

  lemma {:induction false} UpsertKeepsReady(cs: seq<Condition>, c: Condition)
    requires c.conditionType != READY
    ensures ReadyConditions(Upsert(cs, c)) == ReadyConditions(cs)
  {
    if cs != [] && cs[0].conditionType != c.conditionType {
      UpsertKeepsReady(cs[1..], c);
    } else if cs != [] {
      assert Upsert(cs, c)[1..] == cs[1..];
    }
  }

  lemma {:induction false} UpsertTypes(cs: seq<Condition>, c: Condition)
    ensures forall x | x in Upsert(cs, c) :: x == c || x in cs
  {
    if cs != [] && cs[0].conditionType != c.conditionType {
      UpsertTypes(cs[1..], c);
    }
  }

  lemma {:induction false} UpsertKeepsUnique(cs: seq<Condition>, c: Condition)
    requires UniqueTypes(cs)
    ensures UniqueTypes(Upsert(cs, c))
  {
    if cs != [] && cs[0].conditionType != c.conditionType {
      UpsertKeepsUnique(cs[1..], c);
      UpsertTypes(cs[1..], c);
      var r := Upsert(cs[1..], c);
      forall j | 0 <= j < |r|
        ensures r[j].conditionType != cs[0].conditionType
      {
        assert r[j] in r;
        if r[j] != c {
          var k :| 0 <= k < |cs[1..]| && cs[1..][k] == r[j];
          assert cs[k + 1] == r[j];
        }
      }
    }
  }

  /** A step that the operator's journal does not record. */
  ghost predicate Passes(w: World, x: World) {
    Grows(w, x) && x.journal == w.journal && KeepsStatus(w, x) && (Sound(w) ==> Sound(x))
  }

  lemma PassesTransitive(w: World, x: World, y: World)
    requires Passes(w, x) && Passes(x, y)
    ensures Passes(w, y)
  {
    hide Sound, KeepsStatus;
    GrowsTransitive(w, x, y);
    KeepsStatusTransitive(w, x, y);
  }

  lemma AppendPasses(w: World, k: Key, o: Option<Object>)
    requires o.Some? ==> o.value.version == w.clock + 1
    ensures Passes(w, Append(w, k, o))
  {
    var x := Append(w, k, o);
    assert Versions(x, k) == Versions(w, k) + [o];
    assert forall j: Key | j != k :: Versions(x, j) == Versions(w, j);
    if Sound(w) {
      forall j: Key
        ensures Ordered(Versions(x, j), x.clock)
      {
        assert Ordered(Versions(w, j), w.clock);
      }
    }
  }

  lemma PutPasses(w: World, k: Key, c: Content)
    ensures Passes(w, Put(w, k, c))
  {
    hide Passes, NextObject;
    NextVersion(w, k, c);
    AppendPasses(w, k, Some(NextObject(w, k, c)));
    SamePasses(w);
  }

  lemma NextVersion(w: World, k: Key, c: Content)
    ensures NextObject(w, k, c).version == w.clock + 1 && NextObject(w, k, c).content == c
  {
  }

  lemma SamePasses(w: World)
    ensures Passes(w, w)
  {
  }

  lemma RemovePasses(w: World, k: Key)
    ensures Passes(w, Remove(w, k))
  {
    hide Passes, Append;
    AppendPasses(w, k, None);
    SamePasses(w);
  }

  /** A new version of the resource by somebody else. */
  lemma ResourceStepPasses(w: World, next: Option<Resource>)
    requires StoredResource(w).Some?
    requires next.Some? ==>
      && NoLater(StoredResource(w).value.lim, next.value.lim)
      && SameOperatorStatus(StoredResource(w).value.lim, next.value.lim)
      && (UniqueTypes(StoredResource(w).value.lim.status.conditions) ==> UniqueTypes(next.value.lim.status.conditions))
    ensures Passes(w, PutResource(w, next))
  {
    var x := PutResource(w, next);
    if x != w {
      assert x.resource == w.resource + [next];
      assert forall k: Key :: Versions(x, k) == Versions(w, k) && Position(x, k) == Position(w, k);
      if Sound(w) {
        forall j: Key
          ensures Ordered(Versions(x, j), x.clock)
        {
          assert Ordered(Versions(w, j), w.clock);
        }
        var n := |w.resource|;
        assert w.resource[n - 1] == StoredResource(w);
        assert forall i | 0 <= i < n :: x.resource[i] == w.resource[i];
        forall i | 0 <= i < n && next.Some?
          ensures x.resource[i].Some? && NoLater(x.resource[i].value.lim, next.value.lim)
        {
          if i < n - 1 {
            assert w.resource[n - 1].Some? && NoLater(w.resource[i].value.lim, w.resource[n - 1].value.lim);
          }
        }
        assert ResourcesOrdered(x.resource);
        assert NoStaleRead(x);
      }
    }
  }

  lemma EnvStepPasses(w: World, s: EnvStep)
    ensures Passes(w, EnvStepWorld(w, s))
  {
    hide Passes, Put, Append, Remove, Apply, TryApply, Update, Upsert, PutResource;
    SamePasses(w);
    match s
    case WriteObject(k, None) => RemovePasses(w, k);
    case WriteObject(k, Some(c)) =>
      PutPasses(w, k, c);
      EnrollPasses(Put(w, k, c), k);
      PassesTransitive(w, Put(w, k, c), Enroll(Put(w, k, c), k));
    case ForeignApply(k, m, fields) =>
      if m != OPERATOR && Stored(w, k).Some? {
        PutPasses(w, k, TryApply(Stored(w, k).value.content, m, fields));
      }
    case ForeignUpdate(k, m, written, removed) =>
      if m != OPERATOR && Stored(w, k).Some? {
        PutPasses(w, k, Update(Stored(w, k).value.content, m, written, removed));
      }
    case Rollout(k, status) =>
      if Stored(w, k).Some? {
        AppendPasses(w, k, Some(Stored(w, k).value.(version := w.clock + 1, status := status)));
      }
    case Deliver(k) => DeliverPasses(w, k);
    case DeliverLimitador => DeliverLimitadorPasses(w);
    case Tick => TickPasses(w);
    case EditSpec(_) => EnvResourcePasses(w, s);
    case MarkDeleted => EnvResourcePasses(w, s);
    case RemoveLimitador => EnvResourcePasses(w, s);
    case SetForeignCondition(_) => EnvResourcePasses(w, s);
  }

  lemma EnvResourcePasses(w: World, s: EnvStep)
    ensures StoredResource(w).Some? ==> Passes(w, PutResource(w, EnvResource(StoredResource(w).value, s)))
  {
    hide Passes, PutResource, Upsert;
    if StoredResource(w).Some? {
      if s.SetForeignCondition? && s.condition.conditionType != READY {
        var cs := StoredResource(w).value.lim.status.conditions;
        UpsertKeepsReady(cs, s.condition);
        if UniqueTypes(cs) {
          UpsertKeepsUnique(cs, s.condition);
        }
      }
      ResourceStepPasses(w, EnvResource(StoredResource(w).value, s));
    }
  }

  lemma EnrollPasses(w: World, k: Key)
    ensures Passes(w, Enroll(w, k))
  {
    var x := Enroll(w, k);
    SameHistoriesPass(w, x);
  }

  lemma TickPasses(w: World)
    ensures Passes(w, w.(now := w.now + 1))
  {
    SameHistoriesPass(w, w.(now := w.now + 1));
  }

  lemma SameHistoriesPass(w: World, x: World)
    requires x.hist == w.hist && x.seen == w.seen && x.resource == w.resource && x.resourceSeen == w.resourceSeen
    requires x.clock == w.clock && w.now <= x.now && x.lagging == w.lagging && x.journal == w.journal
    ensures Passes(w, x)
  {
    assert forall k: Key :: Versions(x, k) == Versions(w, k) && Position(x, k) == Position(w, k);
  }

  lemma DeliverPasses(w: World, k: Key)
    ensures Passes(w, EnvStepWorld(w, Deliver(k)))
  {
    var x := EnvStepWorld(w, Deliver(k));
    assert forall j: Key :: Versions(x, j) == Versions(w, j);
    assert forall j: Key | j != k :: Position(x, j) == Position(w, j);
  }

  lemma DeliverLimitadorPasses(w: World)
    ensures Passes(w, EnvStepWorld(w, DeliverLimitador))
  {
    var x := EnvStepWorld(w, DeliverLimitador);
    assert forall j: Key :: Versions(x, j) == Versions(w, j) && Position(x, j) == Position(w, j);
  }

  lemma {:induction false} EnvStepsPass(w: World, steps: seq<EnvStep>)
    ensures Passes(w, EnvSteps(w, steps))
    decreases |steps|
  {
    hide Passes, EnvStepWorld;
    if steps == [] {
      SamePasses(w);
    } else {
      var x := EnvStepWorld(w, steps[0]);
      EnvStepPasses(w, steps[0]);
      EnvStepsPass(x, steps[1..]);
      PassesTransitive(w, x, EnvSteps(x, steps[1..]));
    }
  }

  lemma BeforePasses(w: World)
    ensures Passes(w, Before(w))
  {
    hide Passes, EnvSteps;
    SamePasses(w);
    if w.agenda != [] {
      var x := w.(agenda := w.agenda[1..]);
      SameHistoriesPass(w, x);
      EnvStepsPass(x, w.agenda[0].steps);
      PassesTransitive(w, x, EnvSteps(x, w.agenda[0].steps));
    }
  }

  // ---------- the turns that go by ----------

  /** From `w` to `x` turns were taken off the front of the agenda, and nothing else happened to it. */
  predicate Follows(w: World, x: World) {
    |x.agenda| <= |w.agenda| && w.agenda[|w.agenda| - |x.agenda|..] == x.agenda
  }

  /** The turns that went by on the way from `w` to `x`. */
  function Elapsed(w: World, x: World): seq<Turn> {
    if |x.agenda| <= |w.agenda| then w.agenda[..|w.agenda| - |x.agenda|] else []
  }

  lemma FollowsTransitive(w: World, x: World, y: World)
    requires Follows(w, x) && Follows(x, y)
    ensures Follows(w, y) && Elapsed(w, y) == Elapsed(w, x) + Elapsed(x, y)
  {
    var n, m := |w.agenda| - |x.agenda|, |x.agenda| - |y.agenda|;
    assert w.agenda[n..][..m] == w.agenda[n..n + m];
    assert w.agenda[n..][m..] == w.agenda[n + m..];
    assert w.agenda[..n + m] == w.agenda[..n] + w.agenda[n..n + m];
  }

  lemma SameFollows(w: World, x: World)
    requires x.agenda == w.agenda
    ensures Follows(w, x) && Elapsed(w, x) == []
  {
  }

  lemma EnvStepAgenda(w: World, s: EnvStep)
    ensures EnvStepWorld(w, s).agenda == w.agenda
  {
    hide NextObject, TryApply, Update, EnvResource;
  }

  lemma {:induction false} EnvStepsAgenda(w: World, steps: seq<EnvStep>)
    ensures EnvSteps(w, steps).agenda == w.agenda
    decreases |steps|
  {
    hide EnvStepWorld;
    if steps != [] {
      EnvStepAgenda(w, steps[0]);
      EnvStepsAgenda(EnvStepWorld(w, steps[0]), steps[1..]);
    }
  }

  /** A call takes one turn, if there is one. */
  lemma BeforeFollows(w: World)
    ensures Follows(w, Before(w))
    ensures Elapsed(w, Before(w)) == if w.agenda == [] then [] else [w.agenda[0]]
  {
    hide EnvSteps;
    if w.agenda != [] {
      EnvStepsAgenda(w.(agenda := w.agenda[1..]), w.agenda[0].steps);
    }
  }

  // ---------- the operator's calls ----------

  /** A step of the operator: as `Passes`, but the journal may gain events, all from `events`. */
  ghost predicate Records(w: World, x: World, events: iset<Event>) {
    && Grows(w, x) && KeepsStatus(w, x) && (Sound(w) ==> Sound(x))
    && forall i | |w.journal| <= i < |x.journal| :: x.journal[i] in events
  }

  lemma RecordsTransitive(w: World, x: World, y: World, events: iset<Event>)
    requires Records(w, x, events) && Records(x, y, events)
    ensures Records(w, y, events)
  {
    hide Sound, KeepsStatus;
    GrowsTransitive(w, x, y);
    KeepsStatusTransitive(w, x, y);
    assert w.journal <= x.journal <= y.journal;
    forall i | |w.journal| <= i < |y.journal|
      ensures y.journal[i] in events
    {
      if i < |x.journal| {
        assert y.journal[i] == x.journal[i];
      }
    }
  }

  lemma PassesRecords(w: World, x: World, events: iset<Event>)
    requires Passes(w, x)
    ensures Records(w, x, events)
  {
    hide Sound, Grows;
  }

  lemma NoteRecords(w: World, e: Event, events: iset<Event>)
    requires e in events
    ensures Records(w, Note(w, e), events)
  {
    var x := Note(w, e);
    assert forall k: Key :: Versions(x, k) == Versions(w, k) && Position(x, k) == Position(w, k);
  }

  /** The events an action may leave. */
  ghost function EventsOf(a: Action): iset<Event> {
    match a
    case Enforce(k, fields) => iset{AppliedObject(k, fields)}
    case Discard(k) => iset{DeletedObject(k)}
    case Provide(k, fields) => iset{CreatedObject(k, fields)}
    case DemandURL(_) => iset{}
    case Fail(_) => iset{}
  }

  lemma NotedPutRecords(w: World, x: World, e: Event, events: iset<Event>)
    requires Passes(w, x) && e in events
    ensures Records(w, Note(x, e), events)
  {
    hide Records, Passes, Note;
    PassesRecords(w, x, events);
    NoteRecords(x, e, events);
    RecordsTransitive(w, x, Note(x, e), events);
  }

  lemma FaultyRecords(w: World, done: (World, Option<Error>), events: iset<Event>)
    requires Records(Before(w), done.0, events)
    ensures Records(w, Faulty(w, done).0, events)
  {
    hide Records, Before;
    BeforePasses(w);
    PassesRecords(w, Before(w), events);
    RecordsTransitive(w, Before(w), done.0, events);
  }

  lemma PatchRecords(w: World, k: Key, fields: FieldMap)
    ensures Records(w, Patch(w, k, fields).0, iset{AppliedObject(k, fields)})
  {
    hide Records, Before, Put, Apply, Passes, Faulty;
    var x := Before(w);
    var events := iset{AppliedObject(k, fields)};
    SamePasses(x);
    PassesRecords(x, x, events);
    var y := Put(x, k, Apply(StoredContent(x, k), OPERATOR, fields));
    PutPasses(x, k, Apply(StoredContent(x, k), OPERATOR, fields));
    NotedPutRecords(x, y, AppliedObject(k, fields), events);
    FaultyRecords(w, ServeApply(x, k, fields), events);
  }

  lemma CreateRecords(w: World, k: Key, fields: FieldMap)
    ensures Records(w, Create(w, k, fields).0, iset{CreatedObject(k, fields)})
  {
    hide Records, Before, Put, Passes, Faulty;
    var x := Before(w);
    var events := iset{CreatedObject(k, fields)};
    SamePasses(x);
    PassesRecords(x, x, events);
    var y := Put(x, k, Content(fields, map[CREATOR := fields.Keys]));
    PutPasses(x, k, Content(fields, map[CREATOR := fields.Keys]));
    NotedPutRecords(x, y, CreatedObject(k, fields), events);
    FaultyRecords(w, ServeCreate(x, k, fields), events);
  }

  lemma DeleteRecords(w: World, k: Key)
    ensures Records(w, Delete(w, k).0, iset{DeletedObject(k)})
  {
    hide Records, Before, Remove, Passes, Faulty;
    var x := Before(w);
    var events := iset{DeletedObject(k)};
    SamePasses(x);
    PassesRecords(x, x, events);
    RemovePasses(x, k);
    NotedPutRecords(x, Remove(x, k), DeletedObject(k), events);
    FaultyRecords(w, ServeDelete(x, k), events);
  }

  lemma PerformRecords(w: World, a: Action)
    ensures Records(w, Perform(w, a).0, EventsOf(a))
  {
    hide Records, Before, Create, Delete, Patch;
    BeforePasses(w);
    PassesRecords(w, Before(w), EventsOf(a));
    match a
    case Enforce(k, fields) => PatchRecords(w, k, fields);
    case Discard(k) => DeleteRecords(w, k);
    case Provide(k, fields) =>
      CreateRecords(Before(w), k, fields);
      RecordsTransitive(w, Before(w), Create(Before(w), k, fields).0, EventsOf(a));
    case DemandURL(_) =>
    case Fail(_) =>
      SamePasses(w);
      PassesRecords(w, w, EventsOf(a));
  }

  lemma {:induction false} ExecRecords(w: World, plan: seq<Action>, events: iset<Event>)
    requires forall a | a in plan :: EventsOf(a) <= events
    ensures Records(w, Exec(w, plan).0, events)
    decreases |plan|
  {
    hide Perform, EventsOf;
    if plan == [] {
      SamePasses(w);
      PassesRecords(w, w, events);
    } else {
      var x := Perform(w, plan[0]).0;
      PerformRecords(w, plan[0]);
      assert EventsOf(plan[0]) <= events;
      assert Records(w, x, events);
      ExecRecords(x, plan[1..], events);
      RecordsTransitive(w, x, Exec(x, plan[1..]).0, events);
    }
  }
}
