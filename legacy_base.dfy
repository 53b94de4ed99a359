/** The legacy model base of base.go: a model's id, its struct fields by
    position, and the reference marshalling it offers to the JSON:API
    encoder. Panics become errors; fresh ids are parameters. */
module LegacyBase {
  import opened Wrappers
  import opened ObjectIds
  import opened Documents

  /** How a field takes part in relationships. */
  datatype Rel = Attr | ToOneRel(optional: bool) | ToManyRel | HasManyRel

  datatype LegacyField = LegacyField(
    name: string,
    jsonName: string,
    bsonName: string,
    index: nat,
    rel: Rel,
    relName: string,
    relType: string)

  datatype LegacyMeta = LegacyMeta(singularName: string, pluralName: string, fields: seq<LegacyField>)

  /** A relationship offered to the encoder; has-many ones are not loaded. */
  datatype Reference = Reference(relType: string, name: string, notLoaded: bool)

  /** One referenced id of a relationship. */
  datatype ReferenceId = ReferenceId(id: string, relType: string, name: string)

  const InvalidId := "Invalid id"

  function MissingField(name: string, m: LegacyMeta): string {
    "Missing field " + name + " on " + m.singularName
  }

  function MissingRelationship(name: string): string {
    "Missing relationship " + name
  }

  /** How a field is looked up: by any of its names (JSON, BSON or Go), or
      as the to-one or to-many relationship of a name. */
  datatype Select = AnyName(name: string) | ToOneNamed(rel: string) | ToManyNamed(rel: string)

  predicate Picks(s: Select, f: LegacyField) {
    match s
    case AnyName(name) => f.jsonName == name || f.bsonName == name || f.name == name
    case ToOneNamed(rel) => f.rel.ToOneRel? && f.relName == rel
    case ToManyNamed(rel) => f.rel.ToManyRel? && f.relName == rel
  }

  /** The position in `fs` of the first field `s` picks. */
  function FirstWhere(fs: seq<LegacyField>, s: Select): (r: Option<nat>)
    ensures r.None? <==> forall i :: 0 <= i < |fs| ==> !Picks(s, fs[i])
    ensures r.Some? ==> r.value < |fs| && Picks(s, fs[r.value]) && forall i :: 0 <= i < r.value ==> !Picks(s, fs[i])
    decreases |fs|
  {
    if fs == [] then None
    else if Picks(s, fs[0]) then Some(0)
    else match FirstWhere(fs[1..], s) {
      case None => None
      case Some(i) => Some(i + 1)
    }
  }

  /** No two fields describe the same struct field. */
  predicate DistinctIndexes(m: LegacyMeta) {
    forall i, j :: 0 <= i < j < |m.fields| ==> m.fields[i].index != m.fields[j].index
  }

  /** What a well-formed value of a field holds. */
  predicate Typed(f: LegacyField, v: Value) {
    match f.rel
    case ToOneRel(optional) => v.Ref? || (optional && v.Null?)
    case ToManyRel => v.Refs?
    case _ => true
  }

  /** The relationship a field offers to the encoder, if any. */
  function FieldReference(f: LegacyField): (r: seq<Reference>)
    ensures f.rel.ToOneRel? || f.rel.ToManyRel? ==> r == [Reference(f.relType, f.relName, false)]
    ensures f.rel.HasManyRel? ==> r == [Reference(f.relType, f.relName, true)]
    ensures f.rel.Attr? ==> r == []
  {
    if f.rel.ToOneRel? || f.rel.ToManyRel? then [Reference(f.relType, f.relName, false)]
    else if f.rel.HasManyRel? then [Reference(f.relType, f.relName, true)]
    else []
  }

  /** The relationships offered to the encoder, field by field
      (base.go:127-148). */
  function References(fs: seq<LegacyField>): seq<Reference>
    decreases |fs|
  {
    if fs == [] then [] else FieldReference(fs[0]) + References(fs[1..])
  }

  /** Every to-one and to-many relationship is offered as loaded, every
      has-many as not loaded, and nothing else is offered. */
  lemma {:induction false} ReferencesExactly(fs: seq<LegacyField>)
    ensures forall f :: f in fs && (f.rel.ToOneRel? || f.rel.ToManyRel?) ==> Reference(f.relType, f.relName, false) in References(fs)
    ensures forall f :: f in fs && f.rel.HasManyRel? ==> Reference(f.relType, f.relName, true) in References(fs)
    ensures forall x :: x in References(fs) ==> exists f :: f in fs && !f.rel.Attr? && x == FieldReference(f)[0]
  {
    ReferencesOffered(fs);
    ReferencesOnly(fs);
  }

  /** Every relationship field offers its reference. */
  lemma {:induction false} ReferencesOffered(fs: seq<LegacyField>)
    ensures forall f :: f in fs && !f.rel.Attr? ==> FieldReference(f)[0] in References(fs)
    decreases |fs|
  {
    if fs != [] {
      ReferencesOffered(fs[1..]);
      forall f | f in fs && !f.rel.Attr?
        ensures FieldReference(f)[0] in References(fs)
      {
        if f != fs[0] {
          assert f in fs[1..];
        }
      }
    }
  }

  /** Every offered reference comes from a relationship field. */
  lemma {:induction false} ReferencesOnly(fs: seq<LegacyField>)
    ensures forall x :: x in References(fs) ==> exists f :: f in fs && !f.rel.Attr? && x == FieldReference(f)[0]
    decreases |fs|
  {
    if fs != [] {
      ReferencesOnly(fs[1..]);
      forall x | x in References(fs)
        ensures exists f :: f in fs && !f.rel.Attr? && x == FieldReference(f)[0]
      {
        if x in FieldReference(fs[0]) {
          assert !fs[0].rel.Attr? && x == FieldReference(fs[0])[0];
        } else {
          assert x in References(fs[1..]);
          var f :| f in fs[1..] && !f.rel.Attr? && x == FieldReference(f)[0];
          assert f in fs;
        }
      }
    }
  }

  /** The ids a single field references: none for an unset optional to-one,
      one per element of a to-many, in order. */
  function FieldIds(f: LegacyField, v: Value): (r: seq<ReferenceId>)
    ensures f.rel.ToOneRel? && v.Ref? ==> r == [ReferenceId(Hex(v.id), f.relType, f.relName)]
    ensures f.rel.ToOneRel? && v.Null? ==> r == []
    ensures f.rel.ToManyRel? && v.Refs? ==> |r| == |v.ids| && forall i :: 0 <= i < |r| ==> r[i] == ReferenceId(Hex(v.ids[i]), f.relType, f.relName)
    ensures !f.rel.ToOneRel? && !f.rel.ToManyRel? ==> r == []
  {
    if f.rel.ToOneRel? && v.Ref? then [ReferenceId(Hex(v.id), f.relType, f.relName)]
    else if f.rel.ToManyRel? && v.Refs? then seq(|v.ids|, i requires 0 <= i < |v.ids| => ReferenceId(Hex(v.ids[i]), f.relType, f.relName))
    else []
  }

  /** The ids of all to-one and to-many fields, field by field
      (base.go:153-208). */
  function ReferencedIds(fs: seq<LegacyField>, values: seq<Value>): seq<ReferenceId>
    decreases |fs|
  {
    if fs == [] then [] else FieldIds(fs[0], ValueAt(values, fs[0].index)) + ReferencedIds(fs[1..], values)
  }

  /** The value of a struct field; positions past the end read as null. */
  function ValueAt(values: seq<Value>, i: nat): Value {
    if i < |values| then values[i] else Null
  }

  /** The ids of two runs of fields are those of each, one after the other. */
  lemma {:induction false} ReferencedIdsAppend(a: seq<LegacyField>, b: seq<LegacyField>, values: seq<Value>)
    ensures ReferencedIds(a + b, values) == ReferencedIds(a, values) + ReferencedIds(b, values)
    decreases |a|
  {
    if a == [] {
      assert a + b == b;
    } else {
      assert (a + b)[0] == a[0];
      assert (a + b)[1..] == a[1..] + b;
      ReferencedIdsAppend(a[1..], b, values);
    }
  }

  class Base {
    var docId: Option<Id>
    var values: seq<Value>
    const meta: LegacyMeta

    /** Every field indexes its own struct field, which holds a value of
        its kind. */
    ghost predicate Valid()
      reads this
    {
      && DistinctIndexes(meta)
      && forall f :: f in meta.fields ==> f.index < |values| && Typed(f, values[f.index])
    }

    constructor (m: LegacyMeta, vs: seq<Value>, id: Option<Id>)
      requires DistinctIndexes(m)
      requires forall f :: f in m.fields ==> f.index < |vs| && Typed(f, vs[f.index])
      ensures meta == m && values == vs && docId == id && Valid()
    {
      meta := m;
      values := vs;
      docId := id;
    }

    /** base.go:29-39: the value of the first field the name addresses. */
    function Get(name: string): (r: Result<Value, string>)
      requires Valid()
      reads this
      ensures r.Err? <==> forall f :: f in meta.fields ==> !Picks(AnyName(name), f)
      ensures r.Err? ==> r.error == MissingField(name, meta)
      ensures r.Ok? ==> exists i :: (0 <= i < |meta.fields| && Picks(AnyName(name), meta.fields[i])
        && (forall j :: 0 <= j < i ==> !Picks(AnyName(name), meta.fields[j])) && r.value == values[meta.fields[i].index])
    {
      match FirstWhere(meta.fields, AnyName(name)) {
        case None => Err(MissingField(name, meta))
        case Some(i) => Ok(values[meta.fields[i].index])
      }
    }

    /** base.go:46-56: writes the first field the name addresses. */
    method Set(name: string, value: Value) returns (r: Result<(), string>)
      requires Valid()
      modifies this
      ensures docId == old(docId)
      ensures var i := FirstWhere(meta.fields, AnyName(name));
        && (i.None? ==> r == Err(MissingField(name, meta)) && values == old(values))
        && (i.Some? ==> r == Ok(()) && values == old(values)[meta.fields[i.value].index := value])
    {
      var i := 0;
      while i < |meta.fields|
        invariant 0 <= i <= |meta.fields|
        invariant forall j :: 0 <= j < i ==> !Picks(AnyName(name), meta.fields[j])
      {
        var f := meta.fields[i];
        if Picks(AnyName(name), f) {
          values := values[f.index := value];
          assert FirstWhere(meta.fields, AnyName(name)) == Some(i);
          return Ok(());
        }
        i := i + 1;
      }
      return Err(MissingField(name, meta));
    }

    /** base.go:79-89: a missing id is replaced by `newId`. */
    method Initialize(newId: Id)
      modifies this
      ensures values == old(values)
      ensures old(docId).Some? ==> docId == old(docId)
      ensures old(docId).None? ==> docId == Some(newId)
    {
      if docId.None? {
        docId := Some(newId);
      }
    }

    /** base.go:110-122: an empty id takes `newId`, a hex id is parsed, and
        anything else is refused without change. */
    method SetId(id: string, newId: Id) returns (r: Result<(), string>)
      modifies this
      ensures values == old(values)
      ensures id == "" ==> r == Ok(()) && docId == Some(newId)
      ensures id != "" && !IsHex(id) ==> r == Err(InvalidId) && docId == old(docId)
      ensures id != "" && IsHex(id) ==> r == Ok(()) && docId == FromHex(id)
    {
      if |id| == 0 {
        docId := Some(newId);
        return Ok(());
      }
      if !IsHex(id) {
        return Err(InvalidId);
      }
      docId := FromHex(id);
      return Ok(());
    }

    /** base.go:127-148 as a loop. */
    method GetReferences() returns (refs: seq<Reference>)
      ensures refs == References(meta.fields)
    {
      var fs := meta.fields;
      refs := [];
      var i := 0;
      while i < |fs|
        invariant 0 <= i <= |fs|
        invariant References(fs) == refs + References(fs[i..])
      {
        var f := fs[i];
        ReferencesStep(fs, i);
        ghost var before := refs;
        if f.rel.ToOneRel? || f.rel.ToManyRel? {
          refs := refs + [Reference(f.relType, f.relName, false)];
        } else if f.rel.HasManyRel? {
          refs := refs + [Reference(f.relType, f.relName, true)];
        }
        assert refs == before + FieldReference(f);
        Assoc3(before, FieldReference(f), References(fs[i + 1..]));
        i := i + 1;
      }
      assert fs[i..] == [];
    }

    /** base.go:153-208 as a loop over fields and, for to-many fields, over
        their ids. */
    method GetReferencedIds() returns (ids: seq<ReferenceId>)
      requires Valid()
      ensures ids == ReferencedIds(meta.fields, values)
    {
      var fs, vs := meta.fields, values;
      ids := [];
      var i := 0;
      while i < |fs|
        invariant 0 <= i <= |fs|
        invariant ReferencedIds(fs, vs) == ids + ReferencedIds(fs[i..], vs)
      {
        var f := fs[i];
        assert f in meta.fields;
        var v := vs[f.index];
        ReferencedIdsStep(fs, i, vs);
        ghost var before := ids;
        if f.rel.ToOneRel? && v.Ref? {
          ids := ids + [ReferenceId(Hex(v.id), f.relType, f.relName)];
        }
        if f.rel.ToManyRel? {
          ids := AppendToManyIds(ids, f, v);
        }
        assert ids == before + FieldIds(f, v);
        Assoc3(before, FieldIds(f, v), ReferencedIds(fs[i + 1..], vs));
        i := i + 1;
      }
      assert fs[i..] == [];
    }

    /** base.go:213-239: the id is checked before anything changes; the
        first to-one relationship of that name takes it. */
    method SetToOneReferenceId(name: string, id: string) returns (r: Result<(), string>)
      requires Valid()
      modifies this
      ensures Valid() && docId == old(docId)
      ensures !IsHex(id) ==> r == Err(InvalidId) && values == old(values)
      ensures IsHex(id) ==> var i := FirstWhere(meta.fields, ToOneNamed(name));
        && (i.None? ==> r == Err(MissingRelationship(name)) && values == old(values))
        && (i.Some? ==> r == Ok(()) && values == old(values)[meta.fields[i.value].index := Ref(FromHex(id).value)])
    {
      if !IsHex(id) {
        return Err(InvalidId);
      }
      var i := 0;
      while i < |meta.fields|
        invariant 0 <= i <= |meta.fields|
        invariant forall j :: 0 <= j < i ==> !Picks(ToOneNamed(name), meta.fields[j])
      {
        var f := meta.fields[i];
        if f.rel.ToOneRel? && f.relName == name {
          assert FirstWhere(meta.fields, ToOneNamed(name)) == Some(i);
          StoreKeepsTyped(f, Ref(FromHex(id).value));
          values := values[f.index := Ref(FromHex(id).value)];
          return Ok(());
        }
        i := i + 1;
      }
      return Err(MissingRelationship(name));
    }

    /** base.go:244-270: every id is checked before anything changes; the
        first to-many relationship of that name gets them appended. */
    method SetToManyReferenceIds(name: string, ids: seq<string>) returns (r: Result<(), string>)
      requires Valid()
      modifies this
      ensures Valid() && docId == old(docId)
      ensures (exists k :: 0 <= k < |ids| && !IsHex(ids[k])) ==> r == Err(InvalidId) && values == old(values)
      ensures (forall k :: 0 <= k < |ids| ==> IsHex(ids[k])) ==>
        var i := FirstWhere(meta.fields, ToManyNamed(name));
        && (i.None? ==> r == Err(MissingRelationship(name)) && values == old(values))
        && (i.Some? ==> r == Ok(()) && values == old(values)[meta.fields[i.value].index :=
              Refs(old(values)[meta.fields[i.value].index].ids + Parsed(ids))])
    {
      var k := 0;
      while k < |ids|
        invariant 0 <= k <= |ids|
        invariant values == old(values) && Valid()
        invariant forall j :: 0 <= j < k ==> IsHex(ids[j])
      {
        if !IsHex(ids[k]) {
          return Err(InvalidId);
        }
        k := k + 1;
      }
      var i := 0;
      while i < |meta.fields|
        invariant 0 <= i <= |meta.fields|
        invariant values == old(values) && Valid()
        invariant forall j :: 0 <= j < i ==> !Picks(ToManyNamed(name), meta.fields[j])
      {
        var f := meta.fields[i];
        if f.rel.ToManyRel? && f.relName == name {
          assert FirstWhere(meta.fields, ToManyNamed(name)) == Some(i);
          assert f in meta.fields;
          var list := AppendParsed(values[f.index].ids, ids);
          StoreKeepsTyped(f, Refs(list));
          values := values[f.index := Refs(list)];
          return Ok(());
        }
        i := i + 1;
      }
      return Err(MissingRelationship(name));
    }

    /** Writing a value of the field's kind keeps every field well formed. */
    lemma StoreKeepsTyped(f: LegacyField, v: Value)
      requires Valid() && f in meta.fields && Typed(f, v)
      ensures forall g :: g in meta.fields ==> g.index < |values[f.index := v]| && Typed(g, values[f.index := v][g.index])
    {
      forall g | g in meta.fields
        ensures g.index < |values[f.index := v]| && Typed(g, values[f.index := v][g.index])
      {
        if g.index == f.index {
          var a :| 0 <= a < |meta.fields| && meta.fields[a] == f;
          var b :| 0 <= b < |meta.fields| && meta.fields[b] == g;
          assert a == b;
        }
      }
    }
  }

  lemma Assoc3<T>(a: seq<T>, b: seq<T>, c: seq<T>)
    ensures (a + b) + c == a + (b + c)
  {
  }

  lemma ReferencesStep(fs: seq<LegacyField>, i: nat)
    requires i < |fs|
    ensures References(fs[i..]) == FieldReference(fs[i]) + References(fs[i + 1..])
  {
    assert fs[i..][0] == fs[i] && fs[i..][1..] == fs[i + 1..];
  }

  lemma ReferencedIdsStep(fs: seq<LegacyField>, i: nat, values: seq<Value>)
    requires i < |fs| && fs[i].index < |values|
    ensures ReferencedIds(fs[i..], values) == FieldIds(fs[i], values[fs[i].index]) + ReferencedIds(fs[i + 1..], values)
  {
    assert fs[i..][0] == fs[i] && fs[i..][1..] == fs[i + 1..];
  }

  /** Appends the ids of a to-many value one by one. */
  method AppendToManyIds(acc: seq<ReferenceId>, f: LegacyField, v: Value) returns (ids: seq<ReferenceId>)
    requires f.rel.ToManyRel? && v.Refs?
    ensures ids == acc + FieldIds(f, v)
  {
    ids := acc;
    var j := 0;
    while j < |v.ids|
      invariant 0 <= j <= |v.ids|
      invariant ids == acc + FieldIds(f, v)[..j]
    {
      assert FieldIds(f, v)[..j + 1] == FieldIds(f, v)[..j] + [FieldIds(f, v)[j]];
      ids := ids + [ReferenceId(Hex(v.ids[j]), f.relType, f.relName)];
      j := j + 1;
    }
    assert FieldIds(f, v)[..j] == FieldIds(f, v);
  }

  /** Appends the parsed hex ids one by one. */
  method AppendParsed(stored: seq<Id>, ids: seq<string>) returns (list: seq<Id>)
    requires forall k :: 0 <= k < |ids| ==> IsHex(ids[k])
    ensures list == stored + Parsed(ids)
  {
    list := stored;
    var j := 0;
    while j < |ids|
      invariant 0 <= j <= |ids|
      invariant list == stored + Parsed(ids[..j])
    {
      ParsedSnoc(ids[..j], ids[j]);
      assert ids[..j + 1] == ids[..j] + [ids[j]];
      list := list + [FromHex(ids[j]).value];
      j := j + 1;
    }
    assert ids[..j] == ids;
  }

  /** The identifiers of hex strings. */
  function Parsed(ids: seq<string>): (r: seq<Id>)
    requires forall k :: 0 <= k < |ids| ==> IsHex(ids[k])
    ensures |r| == |ids| && forall k :: 0 <= k < |ids| ==> r[k] == FromHex(ids[k]).value
  {
    seq(|ids|, k requires 0 <= k < |ids| => FromHex(ids[k]).value)
  }

  lemma ParsedSnoc(ids: seq<string>, id: string)
    requires (forall k :: 0 <= k < |ids| ==> IsHex(ids[k])) && IsHex(id)
    ensures Parsed(ids + [id]) == Parsed(ids) + [FromHex(id).value]
  {
  }
}
