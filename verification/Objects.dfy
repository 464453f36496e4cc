/** Object identities, the objects the operator hands to the client, and the delete tag
    (pkg/helpers/helpers.go). */
module Objects {
  import opened Wrappers
  import opened Fields

  datatype Kind = Service | PersistentVolumeClaim | Deployment | ConfigMap | PodDisruptionBudget | Pod | Secret

  datatype Key = Key(kind: Kind, namespace: string, name: string)

  const METADATA := At(Root, Metadata)
  const LABELS := At(METADATA, Labels)
  const ANNOTATIONS := At(METADATA, Annotations)
  const SPEC := At(Root, Spec)
  const APP_LABEL := At(LABELS, App)
  const APP_NAME := Text("limitador")
  const DELETE_TAG := At(ANNOTATIONS, DeleteTag)

  /** A desired object. `annotations` is a Go map, None when nil; `DeleteTag` stands for the key
      "limitador.kuadrant.io/delete". */
  datatype Manifest = Manifest(key: Key, annotations: Option<map<Segment, Value>>, fields: FieldMap) {
    /** The field map sent in an apply or a create. */
    function Desired(): FieldMap {
      fields + AnnotationFields(annotations.GetOr(map[]))
    }
  }

  function AnnotationFields(annotations: map<Segment, Value>): (r: FieldMap)
    ensures forall p | p in r :: p.At? && p.parent == ANNOTATIONS && p.segment in annotations
  {
    map k | k in annotations :: At(ANNOTATIONS, k) := annotations[k]
  }

  lemma NoAnnotations(fields: FieldMap)
    ensures AnnotationFields(map[]) == map[]
    ensures fields + map[] == fields
  {
  }

  lemma UntaggedDesired(m: Manifest)
    requires m.annotations.None?
    ensures m.Desired() == m.fields && !IsTagged(m)
  {
    hide AnnotationFields;
    NoAnnotations(m.fields);
  }

  function Tagged(m: Manifest): Manifest {
    m.(annotations := Some(m.annotations.GetOr(map[])[DeleteTag := Text("true")]))
  }

  predicate IsTagged(m: Manifest) {
    m.annotations.Some? && DeleteTag in m.annotations.value
    && m.annotations.value[DeleteTag] == Text("true")
  }

  /** A client.Object: the Go code builds it, then fills fields and annotations in place. */
  class ClientObject {
    const key: Key
    var annotations: Option<map<Segment, Value>>
    var fields: FieldMap

    function Value(): Manifest
      reads this
    {
      Manifest(key, annotations, fields)
    }

    constructor (key: Key, annotations: Option<map<Segment, Value>>, fields: FieldMap)
      ensures Value() == Manifest(key, annotations, fields)
    {
      this.key, this.annotations, this.fields := key, annotations, fields;
    }
  }

  method TagObjectToDelete(obj: ClientObject)
    modifies obj`annotations
    ensures obj.Value() == Tagged(old(obj.Value()))
  {
    if obj.annotations.None? {
      obj.annotations := Some(map[]);
    }
    obj.annotations := Some(obj.annotations.value[DeleteTag := Text("true")]);
  }

  method IsObjectTaggedToDelete(obj: ClientObject) returns (tagged: bool)
    ensures tagged == IsTagged(obj.Value())
  {
    if obj.annotations.None? {
      return false;
    }
    var ok := DeleteTag in obj.annotations.value;
    return ok && obj.annotations.value[DeleteTag] == Text("true");
  }

  /** Tagging makes an object tagged, keeps its identity, its fields and every other annotation;
      an untagged object never sends the tag unless its fields name it. */
  lemma TaggingMarks(m: Manifest)
    ensures IsTagged(Tagged(m)) && Tagged(m).key == m.key && Tagged(m).fields == m.fields
    ensures forall a | a != DeleteTag ::
      (a in Tagged(m).annotations.value <==> a in m.annotations.GetOr(map[])) &&
      (a in m.annotations.GetOr(map[]) ==> Tagged(m).annotations.value[a] == m.annotations.value[a])
    ensures DELETE_TAG !in m.fields ==>
      (IsTagged(m) <==> DELETE_TAG in m.Desired() && m.Desired()[DELETE_TAG] == Text("true"))
  {
  }
}
