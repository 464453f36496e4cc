/** Object contents as the API server keeps them under server-side apply (Kubernetes KEP-555):
    a tree of fields, each with the set of field managers that own it. */
module Fields {

  datatype Segment =
    // parts of every object
    | Metadata | Labels | Annotations | OwnerReferences | Spec | Data
    // parts of the specs the operator writes
    | Selector | Ports | ClusterIP | Type
    | Replicas | Strategy | RollingUpdate | Template
    | Affinity | ImagePullSecrets | Volumes | Container
    | Image | Command | Args | Env | LivenessProbe | ReadinessProbe | Resources | VolumeMounts | ImagePullPolicy
    | MaxUnavailable | MinAvailable
    | AccessModes | StorageClassName | VolumeName
    // map keys the operator uses: seven labels, two annotations, two port names, one config map entry
    | App | LimitadorResource | AppName | AppInstance | AppComponent | AppManagedBy | AppPartOf
    | DeleteTag | LimitsVersion
    | HttpPort | GrpcPort
    | LimitsFile
    // any other entry of a map or of a keyed list
    | Item(key: string)

  /** A place in an object; `Root` is the object itself. */
  datatype Path = Root | At(parent: Path, segment: Segment)

  datatype Value =
    | Struct                      // a map or list entry with no scalar of its own
    | Text(text: string)
    | Number(number: int)
    | Texts(texts: seq<string>)
    | Version(version: nat)       // a resource version, used as an annotation value
    | SecretKey(secret: string, key: string)
    | FromConfigMap(configMap: string)
    | FromClaim(claim: string)
    | MountOf(volume: string)
    | Opaque(payload: string)     // affinity, resource quantities, limits: carried, never inspected

  type Manager = string

  type FieldMap = map<Path, Value>

  datatype Content = Content(fields: FieldMap, owned: map<Manager, set<Path>>) {
    function OwnedBy(m: Manager): set<Path> {
      if m in owned then owned[m] else {}
    }
  }

  const EMPTY := Content(map[], map[])

  /** The path and everything above it, the object itself excluded. */
  function Lineage(p: Path): set<Path> {
    match p
    case Root => {}
    case At(parent, _) => {p} + Lineage(parent)
  }

  /** Some member of `s` is `p` or lies below it. */
  predicate Spans(s: set<Path>, p: Path) {
    exists q | q in s :: p in Lineage(q)
  }

  predicate Managed(owned: map<Manager, set<Path>>, p: Path) {
    exists m | m in owned :: Spans(owned[m], p)
  }

  /** `p` goes away with a field its applier used to list, lists no more, and nobody else manages. */
  predicate Pruned(last: set<Path>, owned: map<Manager, set<Path>>, p: Path) {
    exists r | r in Lineage(p) :: Spans(last, r) && !Managed(owned, r)
  }

  function Overwritten(c: Content, desired: FieldMap): set<Path> {
    set p | p in desired && p in c.fields && c.fields[p] != desired[p]
  }

  function OwnersAfter(c: Content, m: Manager, desired: FieldMap): map<Manager, set<Path>> {
    var changed := Overwritten(c, desired);
    (map n | n in c.owned && n != m :: c.owned[n] - changed)[m := desired.Keys]
  }

  /** Forced server-side apply of `desired` by manager `m`. */
  function Apply(c: Content, m: Manager, desired: FieldMap): Content {
    var owned := OwnersAfter(c, m, desired);
    var merged := c.fields + desired;
    Content(map p | p in merged && !Pruned(c.OwnedBy(m), owned, p) :: merged[p], owned)
  }

  /** Apply without force: refused as a whole when it would change a field of another manager. */
  function TryApply(c: Content, m: Manager, desired: FieldMap): Content {
    if exists n | n in c.owned && n != m :: c.owned[n] * Overwritten(c, desired) != {} then c
    else Apply(c, m, desired)
  }

  /** An ordinary (not applied) write: sets some fields and removes others. */
  function Update(c: Content, m: Manager, written: FieldMap, removed: set<Path>): Content {
    var changed := Overwritten(c, written) + removed;
    var created := set p | p in written && (p !in c.fields || c.fields[p] != written[p]);
    Content((c.fields + written) - removed,
            (map n | n in c.owned && n != m :: c.owned[n] - changed)[m := c.OwnedBy(m) - removed + created])
  }

  /** What the operator wants of an object: it owns exactly the desired fields and they have the desired values. */
  predicate Matches(c: Content, m: Manager, desired: FieldMap) {
    && m in c.owned && c.owned[m] == desired.Keys
    && forall p | p in desired :: p in c.fields && c.fields[p] == desired[p]
  }

  // ---------- one apply ----------

  lemma {:induction false} SelfInLineage(p: Path)
    requires p != Root
    ensures p in Lineage(p)
  {
  }

  lemma {:induction false} LineageTransitive(p: Path, q: Path, r: Path)
    requires p in Lineage(q) && q in Lineage(r)
    ensures p in Lineage(r)
    decreases r
  {
    if q != r {
      LineageTransitive(p, q, r.parent);
    }
  }

  lemma ManagedDownTo(owned: map<Manager, set<Path>>, r: Path, p: Path)
    requires r in Lineage(p) && Managed(owned, p)
    ensures Managed(owned, r)
  {
    var m :| m in owned && Spans(owned[m], p);
    var q :| q in owned[m] && p in Lineage(q);
    LineageTransitive(r, p, q);
    assert Spans(owned[m], r);
  }

  lemma ManagedNotPruned(last: set<Path>, owned: map<Manager, set<Path>>, p: Path)
    requires Managed(owned, p)
    ensures !Pruned(last, owned, p)
  {
    forall r | r in Lineage(p)
      ensures Managed(owned, r)
    {
      ManagedDownTo(owned, r, p);
    }
  }

  predicate NoRoot(fields: FieldMap) {
    Root !in fields
  }

  /** Every desired field is there afterwards, with the desired value, owned by the applier. */
  lemma ApplyAchieves(c: Content, m: Manager, desired: FieldMap)
    requires NoRoot(desired)
    ensures Matches(Apply(c, m, desired), m, desired)
  {
    var owned := OwnersAfter(c, m, desired);
    forall p | p in desired
      ensures !Pruned(c.OwnedBy(m), owned, p)
    {
      SelfInLineage(p);
      assert Spans(owned[m], p);
      ManagedNotPruned(c.OwnedBy(m), owned, p);
    }
  }

  /** Apply is a no-op exactly on contents that already match. */
  lemma ApplyNoOpIffMatches(c: Content, m: Manager, desired: FieldMap)
    requires NoRoot(desired)
    ensures Apply(c, m, desired) == c <==> Matches(c, m, desired)
  {
    if Apply(c, m, desired) == c {
      ApplyAchieves(c, m, desired);
    }
    if Matches(c, m, desired) {
      var owned := OwnersAfter(c, m, desired);
      assert Overwritten(c, desired) == {};
      assert forall n | n in c.owned && n != m :: owned[n] == c.owned[n] - {} == c.owned[n];
      assert owned == c.owned;
      assert c.fields + desired == c.fields;
      forall p | p in c.fields
        ensures !Pruned(c.OwnedBy(m), owned, p)
      {
        forall r | r in Lineage(p) && Spans(desired.Keys, r)
          ensures Managed(owned, r)
        {
          assert Spans(owned[m], r);
        }
      }
    }
  }

  /** A field of another manager that the applier does not list keeps its value and its owner. */
  lemma ApplyKeepsForeign(c: Content, m: Manager, desired: FieldMap, n: Manager, q: Path)
    requires n != m && q in c.OwnedBy(n) && q in c.fields && q !in desired && q != Root
    ensures var a := Apply(c, m, desired);
      q in a.OwnedBy(n) && q in a.fields && a.fields[q] == c.fields[q]
  {
    var owned := OwnersAfter(c, m, desired);
    SelfInLineage(q);
    assert Spans(owned[n], q);
    ManagedNotPruned(c.OwnedBy(m), owned, q);
  }

  /** A field the applier owned and no longer lists, with nobody managing it or anything below it any more, goes away
      together with everything below it, defaulted values included. */
  lemma ApplyDropsSubtree(c: Content, m: Manager, desired: FieldMap, p: Path)
    requires p in c.OwnedBy(m) && p != Root && !Managed(OwnersAfter(c, m, desired), p)
    ensures forall q | q in Apply(c, m, desired).fields :: p !in Lineage(q)
  {
    SelfInLineage(p);
    assert Spans(c.OwnedBy(m), p);
  }

  /** An unforced apply by somebody else cannot disturb what the operator wants. */
  lemma TryApplyKeepsMatch(c: Content, m: Manager, desired: FieldMap, n: Manager, theirs: FieldMap)
    requires n != m && Matches(c, m, desired) && NoRoot(desired)
    ensures Matches(TryApply(c, n, theirs), m, desired)
  {
    if TryApply(c, n, theirs) != c {
      var owned := OwnersAfter(c, n, theirs);
      assert c.owned[m] * Overwritten(c, theirs) == {};
      assert forall p | p in c.owned[m] && p in Overwritten(c, theirs) :: p in c.owned[m] * Overwritten(c, theirs);
      assert owned[m] == c.owned[m] - Overwritten(c, theirs);
      assert c.owned[m] - Overwritten(c, theirs) == c.owned[m];
      forall p | p in desired
        ensures p in Apply(c, n, theirs).fields && Apply(c, n, theirs).fields[p] == desired[p]
      {
        SelfInLineage(p);
        assert Spans(owned[m], p);
        ManagedNotPruned(c.OwnedBy(n), owned, p);
        assert p !in Overwritten(c, theirs);
      }
    }
  }

  /** Nor can an ordinary write of somebody else that stays off the fields the operator lists. */
  lemma UpdateKeepsMatch(c: Content, m: Manager, desired: FieldMap, n: Manager, written: FieldMap, removed: set<Path>)
    requires n != m && Matches(c, m, desired) && (written.Keys + removed) !! desired.Keys
    ensures Matches(Update(c, n, written, removed), m, desired)
  {
    var after := Update(c, n, written, removed);
    var changed := Overwritten(c, written) + removed;
    assert changed !! desired.Keys;
    assert after.owned[m] == c.owned[m] - changed == c.owned[m];
    forall p | p in desired
      ensures p in after.fields && after.fields[p] == desired[p]
    {
      assert p !in written && p !in removed;
    }
  }

  // ---------- whole histories of one object ----------

  datatype Edit =
    | Applied(manager: Manager, desired: FieldMap)
    | Written(manager: Manager, written: FieldMap, removed: set<Path>)

  function PerformEdit(c: Content, e: Edit): Content {
    match e
    case Applied(m, desired) => Apply(c, m, desired)
    case Written(m, written, removed) => Update(c, m, written, removed)
  }

  function PerformEdits(c: Content, edits: seq<Edit>): Content {
    if edits == [] then c else PerformEdit(PerformEdits(c, edits[..|edits| - 1]), edits[|edits| - 1])
  }

  /** Every field manager `m` listed in one of its applies. */
  function EverListed(m: Manager, edits: seq<Edit>): set<Path> {
    if edits == [] then {}
    else
      var e := edits[|edits| - 1];
      EverListed(m, edits[..|edits| - 1]) + if e.Applied? && e.manager == m then e.desired.Keys else {}
  }

  /** Ordinary writes of other actors stay away from (are not at or below) the fields `m` listed so far. */
  predicate WritesStayOutside(m: Manager, edits: seq<Edit>) {
    edits == [] ||
    var e := edits[|edits| - 1];
    && WritesStayOutside(m, edits[..|edits| - 1])
    && (e.Applied? ==> NoRoot(e.desired))
    && (e.Written? ==>
          forall t | t in e.written.Keys + e.removed ::
            Lineage(t) * EverListed(m, edits[..|edits| - 1]) == {})
  }

  /** No field that was ever listed is left behind without an owner at or below it. */
  ghost predicate Accounted(c: Content, listed: set<Path>) {
    forall p | p in listed && p in c.fields :: Managed(c.owned, p)
  }

  lemma ApplyAccounts(c: Content, listed: set<Path>, m: Manager, desired: FieldMap)
    requires Accounted(c, listed) && Root !in listed && NoRoot(desired)
    ensures Accounted(Apply(c, m, desired), listed + desired.Keys)
  {
    var after := Apply(c, m, desired);
    forall p | p in listed + desired.Keys && p in after.fields
      ensures Managed(after.owned, p)
    {
      SelfInLineage(p);
      if p in desired {
        assert Spans(after.owned[m], p);
      } else {
        var n :| n in c.owned && Spans(c.owned[n], p);
        var q :| q in c.owned[n] && p in Lineage(q);
        if n == m {
          assert Spans(c.OwnedBy(m), p);
        } else if q in after.owned[n] {
          assert Spans(after.owned[n], p);
        } else {
          assert q in after.owned[m];
          assert Spans(after.owned[m], p);
        }
      }
    }
  }

  lemma WriteAccounts(c: Content, listed: set<Path>, m: Manager, written: FieldMap, removed: set<Path>)
    requires Accounted(c, listed) && Root !in listed
    requires forall t | t in written.Keys + removed :: Lineage(t) * listed == {}
    ensures Accounted(Update(c, m, written, removed), listed)
  {
    var after := Update(c, m, written, removed);
    forall p | p in listed && p in after.fields
      ensures Managed(after.owned, p)
    {
      SelfInLineage(p);
      assert p in Lineage(p) * listed;
      var n :| n in c.owned && Spans(c.owned[n], p);
      var q :| q in c.owned[n] && p in Lineage(q);
      assert p in Lineage(q) * listed;
      assert q in after.owned[n];
      assert Spans(after.owned[n], p);
    }
  }

  lemma {:induction false} EditsAccount(m: Manager, edits: seq<Edit>)
    requires WritesStayOutside(m, edits)
    ensures Root !in EverListed(m, edits)
    ensures Accounted(PerformEdits(EMPTY, edits), EverListed(m, edits))
  {
    if edits != [] {
      var before, e := edits[..|edits| - 1], edits[|edits| - 1];
      EditsAccount(m, before);
      var c, listed := PerformEdits(EMPTY, before), EverListed(m, before);
      match e
      case Applied(n, desired) => ApplyAccounts(c, listed, n, desired);
      case Written(n, written, removed) => WriteAccounts(c, listed, n, written, removed);
    }
  }

  /** After any history of applies by any managers and of writes outside the operator's fields, one more
      operator apply leaves exactly: its own fields with the values of this apply; of the fields it listed
      earlier only those that somebody else still holds; and every field held by another manager. */
  lemma LastDesiredWins(m: Manager, edits: seq<Edit>, desired: FieldMap)
    requires WritesStayOutside(m, edits) && NoRoot(desired)
    ensures var before := PerformEdits(EMPTY, edits);
      var after := PerformEdits(EMPTY, edits + [Applied(m, desired)]);
      && Matches(after, m, desired)
      && (forall p | p in EverListed(m, edits) && p in after.fields ::
            Spans(desired.Keys, p) || exists n | n in after.owned && n != m :: Spans(after.owned[n], p))
      && (forall n, q | n != m && q in before.OwnedBy(n) && q in before.fields && q !in desired && q != Root ::
            q in after.OwnedBy(n) && q in after.fields && after.fields[q] == before.fields[q])
  {
    var all := edits + [Applied(m, desired)];
    assert all[..|all| - 1] == edits;
    var before := PerformEdits(EMPTY, edits);
    var after := Apply(before, m, desired);
    assert PerformEdits(EMPTY, all) == after;
    ApplyAchieves(before, m, desired);
    EditsAccount(m, edits);
    ApplyAccounts(before, EverListed(m, edits), m, desired);
    forall p | p in EverListed(m, edits) && p in after.fields
      ensures Spans(desired.Keys, p) || exists n | n in after.owned && n != m :: Spans(after.owned[n], p)
    {
      assert Managed(after.owned, p);
    }
    forall n, q | n != m && q in before.OwnedBy(n) && q in before.fields && q !in desired && q != Root
      ensures q in after.OwnedBy(n) && q in after.fields && after.fields[q] == before.fields[q]
    {
      ApplyKeepsForeign(before, m, desired, n, q);
    }
  }
}
