/** The three write disciplines of the operator (pkg/reconcilers/base_reconciler.go), and plans built from them. */
module Reconcilers {
  import opened Wrappers
  import opened Fields
  import opened Objects
  import opened Cluster

  const LIMITS_VERSION_ANNOTATION := At(ANNOTATIONS, LimitsVersion)
  const SECRET_URL := At(At(Root, Data), Item("URL"))

  /** One thing the operator wants done; `Fail` is an error found before any call. */
  datatype Action =
    | Enforce(key: Key, fields: FieldMap)      // forced server-side apply
    | Discard(key: Key)                        // delete, absence is success
    | Provide(key: Key, fields: FieldMap)      // create unless there
    | DemandURL(key: Key)                      // the secret must exist and hold a URL
    | Fail(message: string)

  const NO_URL := "the storage config Secret doesn't have the `URL` field"

  function AfterProvideGet(w: World, r: Result<Object>, key: Key, fields: FieldMap): (World, Option<Error>) {
    match r
    case Ok(_) => (w, None)
    case Err(NotFound(_)) => Create(w, key, fields)
    case Err(e) => (w, Some(e))
  }

  function Perform(w: World, a: Action): (World, Option<Error>) {
    match a
    case Enforce(key, fields) => Patch(w, key, fields)
    case Discard(key) =>
      var done := Delete(w, key);
      if done.1.Some? && done.1.value.NotFound? then (done.0, None) else done
    case Provide(key, fields) =>
      var got := Get(w, key);
      AfterProvideGet(got.0, got.1, key, fields)
    case DemandURL(key) =>
      var got := Get(w, key);
      (got.0, match got.1
              case Err(e) => Some(e)
              case Ok(secret) => if SECRET_URL in secret.content.fields then None else Some(Failed(NO_URL)))
    case Fail(message) => (w, Some(Failed(message)))
  }

  /** Actions in order, up to and including the first that fails. */
  function Exec(w: World, plan: seq<Action>): (World, Option<Error>)
    decreases |plan|
  {
    if plan == [] then (w, None)
    else
      var done := Perform(w, plan[0]);
      if done.1.Some? then done else Exec(done.0, plan[1..])
  }

  function ActionFor(m: Manifest): Action {
    if IsTagged(m) then Discard(m.key) else Enforce(m.key, m.Desired())
  }

  function ClaimActionFor(m: Manifest): Action {
    if IsTagged(m) then Discard(m.key) else Provide(m.key, m.Desired())
  }

  function PodPatch(pod: Key, version: nat): Manifest {
    Manifest(pod, Some(map[LimitsVersion := Version(version)]), map[])
  }

  class BaseReconciler {
    const client: Client

    constructor (client: Client)
      ensures this.client == client
    {
      this.client := client;
    }

    method ReconcileResource(obj: ClientObject) returns (err: Option<Error>)
      modifies client
      ensures (client.world, err) == Perform(old(client.world), ActionFor(obj.Value()))
    {
      var tagged := IsObjectTaggedToDelete(obj);
      if tagged {
        err := DeleteResource(obj);
        return;
      }
      var fields := obj.Value().Desired();
      err := client.ApplyObject(obj.key, fields);
    }

    method ReconcilePersistentVolumeClaim(desired: ClientObject) returns (err: Option<Error>)
      modifies client
      ensures (client.world, err) == Perform(old(client.world), ClaimActionFor(desired.Value()))
    {
      hide Create, Get, Delete;
      var tagged := IsObjectTaggedToDelete(desired);
      if tagged {
        err := DeleteResource(desired);
        return;
      }
      var fields := desired.Value().Desired();
      var got := client.GetObject(desired.key);
      if got.Err? {
        if !got.error.NotFound? {
          return Some(got.error);
        }
        err := client.CreateObject(desired.key, fields);
        return;
      }
      return None;
    }

    method DeleteResource(obj: ClientObject) returns (err: Option<Error>)
      modifies client
      ensures (client.world, err) == Perform(old(client.world), Discard(obj.key))
    {
      err := client.DeleteObject(obj.key);
      if err.Some? && err.value.NotFound? {
        err := None;
      }
    }

    method ReconcilePodAnnotation(pod: Key, version: nat) returns (err: Option<Error>)
      modifies client
      ensures (client.world, err) == Perform(old(client.world), ActionFor(PodPatch(pod, version)))
    {
      var podPatch := new ClientObject(pod, Some(map[LimitsVersion := Version(version)]), map[]);
      assert podPatch.Value() == PodPatch(pod, version);
      err := ReconcileResource(podPatch);
    }
  }

  // ---------- plans in general ----------

  lemma {:induction false} ExecConcat(w: World, first: seq<Action>, second: seq<Action>)
    ensures Exec(w, first + second) ==
      var done := Exec(w, first); if done.1.Some? then done else Exec(done.0, second)
    decreases |first|
  {
    if first == [] {
      assert first + second == second;
    } else {
      var done := Perform(w, first[0]);
      assert (first + second)[1..] == first[1..] + second;
      if done.1.None? {
        ExecConcat(done.0, first[1..], second);
      }
    }
  }
}
