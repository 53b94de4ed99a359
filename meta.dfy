/** The model descriptor the controller works from: one entry per struct
    field with its JSON key, its storage key and, for relationships, its
    name, related type, inverse and cardinality. */
module ModelMeta {
  import opened Wrappers

  /** The Go type of a field, as far as the controller cares. */
  datatype Kind = BoolKind | StringKind | TimeKind | TimePtrKind | IdKind | IdPtrKind | IdsKind | OtherKind

  datatype Card = NoRel | ToOne(optional: bool) | ToMany | HasOne | HasMany
  {
    /** To-one and to-many relationships are stored on this model. */
    predicate Stored() { ToOne? || ToMany? }
    /** Has-one and has-many are virtual: stored on the related model. */
    predicate Virtual() { HasOne? || HasMany? }
  }

  datatype Field = Field(
    name: string,
    jsonKey: string,
    bson: string,
    kind: Kind,
    relName: string,
    relType: string,
    relInverse: string,
    card: Card)
  {
    predicate IsAttribute() { jsonKey != "" }
    predicate IsRelationship() { relName != "" }
  }

  datatype Meta = Meta(name: string, plural: string, fields: seq<Field>)

  /** What the reflection-based descriptor guarantees: names, JSON keys,
      relationship names and storage keys are unique, and a field is an
      attribute, a relationship or neither, never both. */
  ghost predicate WellFormed(m: Meta) {
    && (forall i, j :: 0 <= i < j < |m.fields| ==> m.fields[i].name != m.fields[j].name)
    && (forall i, j :: 0 <= i < j < |m.fields| ==> m.fields[i].bson != m.fields[j].bson)
    && (forall i, j :: 0 <= i < j < |m.fields| && m.fields[i].jsonKey != "" ==> m.fields[i].jsonKey != m.fields[j].jsonKey)
    && (forall i, j :: 0 <= i < j < |m.fields| && m.fields[i].relName != "" ==> m.fields[i].relName != m.fields[j].relName)
    && (forall f :: f in m.fields ==> f.name != "")
    && (forall f :: f in m.fields ==> !(f.IsAttribute() && f.IsRelationship()))
    && (forall f :: f in m.fields ==> (f.IsRelationship() <==> !f.card.NoRel?))
  }

  /** How a field is looked up: by Go name, JSON key, relationship name or storage key. */
  datatype Key = ByName(name: string) | ByJsonKey(key: string) | ByRelName(rel: string) | ByBson(bson: string)

  predicate Selects(k: Key, f: Field) {
    match k
    case ByName(n) => f.name == n
    case ByJsonKey(key) => key != "" && f.jsonKey == key
    case ByRelName(rel) => rel != "" && f.relName == rel
    case ByBson(b) => f.bson == b
  }

  /** The first field `k` selects, in declaration order. */
  function Lookup(fields: seq<Field>, k: Key): (r: Option<Field>)
    ensures r.Some? ==> r.value in fields && Selects(k, r.value)
    ensures r.None? ==> forall f :: f in fields ==> !Selects(k, f)
  {
    if fields == [] then None
    else if Selects(k, fields[0]) then Some(fields[0])
    else Lookup(fields[1..], k)
  }

  /** The attribute with JSON key `key` (the descriptor's Attributes map). */
  function AttributeNamed(m: Meta, key: string): (r: Option<Field>)
    ensures r.Some? ==> r.value in m.fields && r.value.jsonKey == key && key != ""
    ensures r.None? ==> forall f :: f in m.fields ==> f.jsonKey != key || key == ""
  {
    Lookup(m.fields, ByJsonKey(key))
  }

  /** The relationship named `rel` (the descriptor's Relationships map). */
  function RelationshipNamed(m: Meta, rel: string): (r: Option<Field>)
    ensures r.Some? ==> r.value in m.fields && r.value.relName == rel && rel != ""
    ensures r.None? ==> forall f :: f in m.fields ==> f.relName != rel || rel == ""
  {
    Lookup(m.fields, ByRelName(rel))
  }

  /** The field with Go name `name` (the descriptor's Fields map). */
  function FieldNamed(m: Meta, name: string): (r: Option<Field>)
    ensures r.Some? ==> r.value in m.fields && r.value.name == name
    ensures r.None? ==> forall f :: f in m.fields ==> f.name != name
  {
    Lookup(m.fields, ByName(name))
  }

  /** In a well-formed descriptor a key names at most one field. */
  lemma AttributeNamedUnique(m: Meta, f: Field)
    requires WellFormed(m) && f in m.fields && f.jsonKey != ""
    ensures AttributeNamed(m, f.jsonKey) == Some(f)
  {
    var g := AttributeNamed(m, f.jsonKey).value;
    var i :| 0 <= i < |m.fields| && m.fields[i] == f;
    var j :| 0 <= j < |m.fields| && m.fields[j] == g;
    if i < j { assert false; } else if j < i { assert false; }
  }

  lemma RelationshipNamedUnique(m: Meta, f: Field)
    requires WellFormed(m) && f in m.fields && f.relName != ""
    ensures RelationshipNamed(m, f.relName) == Some(f)
  {
    var g := RelationshipNamed(m, f.relName).value;
    var i :| 0 <= i < |m.fields| && m.fields[i] == f;
    var j :| 0 <= j < |m.fields| && m.fields[j] == g;
    if i < j { assert false; } else if j < i { assert false; }
  }

  lemma FieldNamedUnique(m: Meta, f: Field)
    requires WellFormed(m) && f in m.fields
    ensures FieldNamed(m, f.name) == Some(f)
  {
    var g := FieldNamed(m, f.name).value;
    var i :| 0 <= i < |m.fields| && m.fields[i] == f;
    var j :| 0 <= j < |m.fields| && m.fields[j] == g;
    if i < j { assert false; } else if j < i { assert false; }
  }

  /** The storage keys of a model's fields. */
  function StorageKeys(m: Meta): (r: set<string>)
  {
    set f | f in m.fields :: f.bson
  }

  /** The field stored under storage key `b`. */
  function FieldStoredAt(m: Meta, b: string): (r: Option<Field>)
    ensures r.Some? ==> r.value in m.fields && r.value.bson == b
    ensures r.None? ==> b !in StorageKeys(m)
  {
    Lookup(m.fields, ByBson(b))
  }

  lemma FieldStoredAtUnique(m: Meta, f: Field)
    requires WellFormed(m) && f in m.fields
    ensures FieldStoredAt(m, f.bson) == Some(f)
  {
    var g := FieldStoredAt(m, f.bson).value;
    var i :| 0 <= i < |m.fields| && m.fields[i] == f;
    var j :| 0 <= j < |m.fields| && m.fields[j] == g;
    if i < j { assert false; } else if j < i { assert false; }
  }
}
