/** The cluster as the operator meets it: an API server that remembers every version of every object, a read
    cache that may lag behind it, other actors, and calls that may fail. */
module Cluster {
  import opened Wrappers
  import opened Fields
  import opened Objects
  import opened LimitadorTypes

  const OPERATOR: Manager := "limitador-operator"
  const CREATOR: Manager := "manager"     // field manager of plain creates

  datatype DeploymentCondition = DeploymentCondition(conditionType: string, status: ConditionStatus, message: string)

  datatype DeploymentStatus = DeploymentStatus(
    observedGeneration: nat, replicas: int, readyReplicas: int, unavailableReplicas: int,
    conditions: seq<DeploymentCondition>)

  const NO_STATUS := DeploymentStatus(0, 0, 0, 0, [])

  /** `generation` counts changes outside the metadata; `status` is filled for Deployments only. */
  datatype Object = Object(version: nat, generation: nat, content: Content, status: DeploymentStatus)

  /** The stored custom resource, with the condition types each side listed in its status writes. */
  datatype Resource = Resource(lim: Limitador, listed: set<string>, foreign: set<string>)

  datatype Error = NotFound(message: string) | Failed(message: string)
  datatype Result<+T> = Ok(value: T) | Err(error: Error)

  /** What goes wrong with a call. When the reply is lost the call has taken effect, yet the caller sees an error. */
  datatype Fault = NoFault | Rejected(message: string) | ReplyLost(message: string)

  /** One step of somebody other than the operator. */
  datatype EnvStep =
    | WriteObject(key: Key, content: Option<Content>)                    // any write, creation or deletion
    | ForeignApply(key: Key, manager: Manager, fields: FieldMap)         // unforced apply to an existing object
    | ForeignUpdate(key: Key, manager: Manager, written: FieldMap, removed: set<Path>)   // ordinary write to one
    | Rollout(key: Key, status: DeploymentStatus)                        // the deployment controller reports
    | EditSpec(spec: LimitadorSpec)                                      // the user edits the resource
    | MarkDeleted
    | RemoveLimitador
    | SetForeignCondition(condition: Condition)                          // another controller reports
    | Deliver(key: Key)                                                  // the cache receives one more version
    | DeliverLimitador
    | Tick

  /** What happens just before a call, and what happens to the call. */
  datatype Turn = Turn(steps: seq<EnvStep>, fault: Fault)

  /** The operator's own doings, in order. */
  datatype Event =
    | AppliedObject(key: Key, fields: FieldMap)
    | CreatedObject(key: Key, fields: FieldMap)
    | DeletedObject(key: Key)
    | CheckedDeployment(deployment: Option<Object>)
    | SpecCompleted(generation: nat)
    | WroteStatus(status: LimitadorStatus, at: nat)

  /** `hist` and `resource` hold every version so far, None for "deleted". `seen` counts the versions delivered to
      the cache; it matters only when the cache is `lagging`. `roster` lists the pods in the order a list call
      returns them. The `agenda` is what is going to happen around the next calls; when it is empty the environment
      is quiet and no call fails. */
  datatype World = World(
    hist: map<Key, seq<Option<Object>>>,
    seen: map<Key, nat>,
    resource: seq<Option<Resource>>,
    resourceSeen: nat,
    roster: seq<Key>,
    clock: nat,
    now: nat,
    lagging: bool,
    agenda: seq<Turn>,
    journal: seq<Event>)

  // ---------- reading ----------

  function LastOf<T>(s: seq<Option<T>>): Option<T> {
    if s == [] then None else s[|s| - 1]
  }

  function Versions(w: World, k: Key): seq<Option<Object>> {
    if k in w.hist then w.hist[k] else []
  }

  function Stored(w: World, k: Key): Option<Object> {
    LastOf(Versions(w, k))
  }

  function Position(w: World, k: Key): (n: nat)
    ensures n <= |Versions(w, k)|
  {
    if !w.lagging then |Versions(w, k)|
    else if k !in w.seen then 0
    else if w.seen[k] <= |Versions(w, k)| then w.seen[k]
    else |Versions(w, k)|
  }

  /** Secrets and Services are not narrowed by the label selector of the cache, and Secrets are not cached at all. */
  predicate LabelFiltered(kind: Kind) {
    kind != Secret && kind != Service
  }

  predicate HasAppLabel(c: Content) {
    APP_LABEL in c.fields && c.fields[APP_LABEL] == APP_NAME
  }

  /** What a read returns. */
  function View(w: World, k: Key): Option<Object> {
    var o := if k.kind == Secret then Stored(w, k) else LastOf(Versions(w, k)[..Position(w, k)]);
    if o.Some? && LabelFiltered(k.kind) && !HasAppLabel(o.value.content) then None else o
  }

  function StoredResource(w: World): Option<Resource> {
    LastOf(w.resource)
  }

  function ResourcePosition(w: World): (n: nat)
    ensures n <= |w.resource|
  {
    if !w.lagging || |w.resource| < w.resourceSeen then |w.resource| else w.resourceSeen
  }

  function ViewResource(w: World): Option<Resource> {
    LastOf(w.resource[..ResourcePosition(w)])
  }

  // ---------- writing ----------

  function SpecFields(fields: FieldMap): FieldMap {
    map p | p in fields && METADATA !in Lineage(p) :: fields[p]
  }

  function Append(w: World, k: Key, o: Option<Object>): World {
    w.(hist := w.hist[k := Versions(w, k) + [o]], clock := w.clock + 1)
  }

  function NextObject(w: World, k: Key, c: Content): Object {
    match Stored(w, k)
    case None => Object(w.clock + 1, 1, c, NO_STATUS)
    case Some(o) =>
      Object(w.clock + 1,
             if SpecFields(c.fields) == SpecFields(o.content.fields) then o.generation else o.generation + 1,
             c, o.status)
  }

  /** Stores a content; writing what is there already changes nothing, not even the version. */
  function Put(w: World, k: Key, c: Content): World {
    if Stored(w, k).Some? && Stored(w, k).value.content == c then w
    else Append(w, k, Some(NextObject(w, k, c)))
  }

  function Remove(w: World, k: Key): World {
    if Stored(w, k).None? then w else Append(w, k, None)
  }

  function PutResource(w: World, r: Option<Resource>): World {
    if r == StoredResource(w) then w else w.(resource := w.resource + [r])
  }

  function Note(w: World, e: Event): World {
    w.(journal := w.journal + [e])
  }

  // ---------- conditions as a list keyed by type ----------

  predicate HasType(cs: seq<Condition>, t: string) {
    exists c | c in cs :: c.conditionType == t
  }

  /** The stored conditions that survive a status apply listing the types of `applied`. */
  function KeptConditions(stored: seq<Condition>, applied: seq<Condition>, dropped: set<string>): seq<Condition> {
    if stored == [] then []
    else
      var front := KeptConditions(stored[..|stored| - 1], applied, dropped);
      var c := stored[|stored| - 1];
      if HasType(applied, c.conditionType) || c.conditionType in dropped then front else front + [c]
  }

  function TypesOf(cs: seq<Condition>): set<string> {
    set c | c in cs :: c.conditionType
  }

  /** Forced apply of the status by the operator. */
  function MergeStatus(r: Resource, status: LimitadorStatus): Resource {
    var listed := TypesOf(status.conditions);
    Resource(
      r.lim.(status := status.(conditions :=
        status.conditions + KeptConditions(r.lim.status.conditions, status.conditions, r.listed - listed - r.foreign))),
      listed, r.foreign)
  }

  function Upsert(cs: seq<Condition>, c: Condition): seq<Condition> {
    if cs == [] then [c]
    else if cs[0].conditionType == c.conditionType then [c] + cs[1..]
    else [cs[0]] + Upsert(cs[1..], c)
  }

  // ---------- the environment ----------

  function EnvResource(r: Resource, s: EnvStep): Option<Resource> {
    match s
    case EditSpec(spec) =>
      if spec == r.lim.spec || !Admitted(spec) then Some(r)
      else Some(r.(lim := r.lim.(spec := spec, generation := r.lim.generation + 1)))
    case MarkDeleted =>
      if r.lim.deleting then Some(r)
      else Some(r.(lim := r.lim.(deleting := true, generation := r.lim.generation + 1)))
    case RemoveLimitador => None
    case SetForeignCondition(c) =>
      if c.conditionType == READY then Some(r)
      else Some(r.(lim := r.lim.(status := r.lim.status.(conditions := Upsert(r.lim.status.conditions, c))),
                   foreign := r.foreign + {c.conditionType}))
    case _ => Some(r)
  }

  function Enroll(w: World, k: Key): World {
    if k.kind == Pod && k !in w.roster then w.(roster := w.roster + [k]) else w
  }

  function EnvStepWorld(w: World, s: EnvStep): World {
    match s
    case WriteObject(k, None) => Remove(w, k)
    case WriteObject(k, Some(c)) => Enroll(Put(w, k, c), k)
    case ForeignApply(k, m, fields) =>
      if m == OPERATOR || Stored(w, k).None? then w
      else Put(w, k, TryApply(Stored(w, k).value.content, m, fields))
    case ForeignUpdate(k, m, written, removed) =>
      if m == OPERATOR || Stored(w, k).None? then w
      else Put(w, k, Update(Stored(w, k).value.content, m, written, removed))
    case Rollout(k, status) =>
      if Stored(w, k).None? || Stored(w, k).value.status == status then w
      else Append(w, k, Some(Stored(w, k).value.(version := w.clock + 1, status := status)))
    case Deliver(k) => if Position(w, k) == |Versions(w, k)| then w else w.(seen := w.seen[k := Position(w, k) + 1])
    case DeliverLimitador =>
      if ResourcePosition(w) == |w.resource| then w else w.(resourceSeen := ResourcePosition(w) + 1)
    case Tick => w.(now := w.now + 1)
    case _ =>
      if StoredResource(w).None? then w else PutResource(w, EnvResource(StoredResource(w).value, s))
  }

  function EnvSteps(w: World, steps: seq<EnvStep>): World
    decreases |steps|
  {
    if steps == [] then w else EnvSteps(EnvStepWorld(w, steps[0]), steps[1..])
  }

  /** The world when the next call reaches the API server. */
  function Before(w: World): World {
    if w.agenda == [] then w else EnvSteps(w.(agenda := w.agenda[1..]), w.agenda[0].steps)
  }

  function FaultOf(w: World): Fault {
    if w.agenda == [] then NoFault else w.agenda[0].fault
  }

  // ---------- the operator's calls ----------

  function GetResult(w: World, k: Key): Result<Object> {
    match View(w, k)
    case None => Err(NotFound(k.name + " not found"))
    case Some(o) => Ok(o)
  }

  function Get(w: World, k: Key): (World, Result<Object>) {
    match FaultOf(w)
    case NoFault => (Before(w), GetResult(Before(w), k))
    case Rejected(m) => (Before(w), Err(Failed(m)))
    case ReplyLost(m) => (Before(w), Err(Failed(m)))
  }

  function GetLimitador(w: World): (World, Result<Limitador>) {
    match FaultOf(w)
    case NoFault =>
      (Before(w), match ViewResource(Before(w))
                  case None => Err(NotFound("limitador not found"))
                  case Some(r) => Ok(r.lim))
    case Rejected(m) => (Before(w), Err(Failed(m)))
    case ReplyLost(m) => (Before(w), Err(Failed(m)))
  }

  /** The outcome of a write that did `done`, seen through the fault of its turn. */
  function Faulty(w: World, done: (World, Option<Error>)): (World, Option<Error>) {
    match FaultOf(w)
    case NoFault => done
    case Rejected(m) => (Before(w), Some(Failed(m)))
    case ReplyLost(m) => (done.0, Some(Failed(m)))
  }

  function StoredContent(w: World, k: Key): Content {
    match Stored(w, k)
    case None => EMPTY
    case Some(o) => o.content
  }

  /** A pod cannot come into being by applying an annotation to it. */
  function ServeApply(w: World, k: Key, fields: FieldMap): (World, Option<Error>) {
    if Stored(w, k).None? && k.kind == Pod then (w, Some(Failed("spec.containers: Required value")))
    else (Note(Put(w, k, Apply(StoredContent(w, k), OPERATOR, fields)), AppliedObject(k, fields)), None)
  }

  function ServeCreate(w: World, k: Key, fields: FieldMap): (World, Option<Error>) {
    if Stored(w, k).Some? then (w, Some(Failed("already exists")))
    else (Note(Put(w, k, Content(fields, map[CREATOR := fields.Keys])), CreatedObject(k, fields)), None)
  }

  function ServeDelete(w: World, k: Key): (World, Option<Error>) {
    if Stored(w, k).None? then (w, Some(NotFound(k.name + " not found")))
    else (Note(Remove(w, k), DeletedObject(k)), None)
  }

  function ServeStatus(w: World, status: LimitadorStatus, at: nat): (World, Option<Error>) {
    if StoredResource(w).None? then (w, Some(NotFound("limitador not found")))
    else (Note(PutResource(w, Some(MergeStatus(StoredResource(w).value, status))), WroteStatus(status, at)), None)
  }

  function Patch(w: World, k: Key, fields: FieldMap): (World, Option<Error>) {
    Faulty(w, ServeApply(Before(w), k, fields))
  }

  function Create(w: World, k: Key, fields: FieldMap): (World, Option<Error>) {
    Faulty(w, ServeCreate(Before(w), k, fields))
  }

  function Delete(w: World, k: Key): (World, Option<Error>) {
    Faulty(w, ServeDelete(Before(w), k))
  }

  function PatchStatus(w: World, status: LimitadorStatus, at: nat): (World, Option<Error>) {
    Faulty(w, ServeStatus(Before(w), status, at))
  }

  /** A pod of a list result, as the cache knows it. */
  datatype ListedPod = ListedPod(key: Key, state: Object)

  predicate Selected(o: Object, selector: FieldMap) {
    forall p | p in selector :: p in o.content.fields && o.content.fields[p] == selector[p]
  }

  function ListedFrom(w: World, roster: seq<Key>, namespace: string, selector: FieldMap): seq<ListedPod> {
    if roster == [] then []
    else
      var rest := ListedFrom(w, roster[1..], namespace, selector);
      var k := roster[0];
      if k.kind == Pod && k.namespace == namespace && View(w, k).Some? && Selected(View(w, k).value, selector)
      then [ListedPod(k, View(w, k).value)] + rest
      else rest
  }

  function ListPods(w: World, namespace: string, selector: FieldMap): (World, Result<seq<ListedPod>>) {
    match FaultOf(w)
    case NoFault => (Before(w), Ok(ListedFrom(Before(w), Before(w).roster, namespace, selector)))
    case Rejected(m) => (Before(w), Err(Failed(m)))
    case ReplyLost(m) => (Before(w), Err(Failed(m)))
  }

  /** The client of controller-runtime: reads go to the cache, writes to the API server. */
  class Client {
    var world: World

    constructor (world: World)
      ensures this.world == world
    {
      this.world := world;
    }

    method GetObject(key: Key) returns (r: Result<Object>)
      modifies this
      ensures (world, r) == Get(old(world), key)
    {
      var reply := Get(world, key);
      world, r := reply.0, reply.1;
    }

    method GetLimitadorObject() returns (r: Result<Limitador>)
      modifies this
      ensures (world, r) == GetLimitador(old(world))
    {
      var reply := GetLimitador(world);
      world, r := reply.0, reply.1;
    }

    method ApplyObject(key: Key, fields: FieldMap) returns (err: Option<Error>)
      modifies this
      ensures (world, err) == Patch(old(world), key, fields)
    {
      var reply := Patch(world, key, fields);
      world, err := reply.0, reply.1;
    }

    method CreateObject(key: Key, fields: FieldMap) returns (err: Option<Error>)
      modifies this
      ensures (world, err) == Create(old(world), key, fields)
    {
      var reply := Create(world, key, fields);
      world, err := reply.0, reply.1;
    }

    method DeleteObject(key: Key) returns (err: Option<Error>)
      modifies this
      ensures (world, err) == Delete(old(world), key)
    {
      var reply := Delete(world, key);
      world, err := reply.0, reply.1;
    }

    method ApplyStatus(status: LimitadorStatus, at: nat) returns (err: Option<Error>)
      modifies this
      ensures (world, err) == PatchStatus(old(world), status, at)
    {
      var reply := PatchStatus(world, status, at);
      world, err := reply.0, reply.1;
    }

    method List(namespace: string, selector: FieldMap) returns (r: Result<seq<ListedPod>>)
      modifies this
      ensures (world, r) == ListPods(old(world), namespace, selector)
    {
      var reply := ListPods(world, namespace, selector);
      world, r := reply.0, reply.1;
    }

    /** Book-keeping only. */
    method Record(e: Event)
      modifies this
      ensures world == Note(old(world), e)
    {
      world := Note(world, e);
    }
  }
}
