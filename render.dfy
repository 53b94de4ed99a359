/** Rendering models as JSON:API resources (controller.go:1552-1893): the
    has-one and has-many relationships of a batch of models are preloaded
    from the related collections, then every model becomes a resource that
    holds its readable attributes and relationships. */
module Render {
  import opened Wrappers
  import opened ObjectIds
  import opened Documents
  import opened ModelMeta
  import opened JsonApi
  import Assign
  import ListQuery

  /** What preloading needs of a related controller: its descriptor, the
      storage key of its soft-delete field when soft delete is on, and the
      documents of its collection. */
  datatype Related = Related(meta: Meta, softDelete: Option<string>, docs: Collection)

  /** Per has-one/has-many relationship name, the ids of the related
      documents that refer to each owner. */
  type Preloaded = map<string, map<Id, seq<Id>>>

  // ---- which documents refer to an owner ------------------------------------

  /** How often `x` occurs in `ids`. */
  function Occurrences(ids: seq<Id>, x: Id): (n: nat)
    ensures n <= |ids|
    ensures n > 0 <==> x in ids
  {
    if ids == [] then 0
    else
      assert ids == ids[..|ids| - 1] + [ids[|ids| - 1]];
      Occurrences(ids[..|ids| - 1], x) + (if ids[|ids| - 1] == x then 1 else 0)
  }

  /** `n` copies of `x`. */
  function Repeat(x: Id, n: nat): (r: seq<Id>)
    ensures |r| == n
    ensures forall y :: y in r ==> y == x
  {
    if n == 0 then [] else Repeat(x, n - 1) + [x]
  }

  /** How many references to `owner` the inverse field of `d` holds: one for
      a to-one field that stores it, one per occurrence in a to-many field;
      the zero id is never a reference. */
  function RefCount(d: Doc, inverse: Field, owner: Id): nat {
    if owner.IsZero() then 0
    else match Get(d, inverse.bson)
      case Ref(rid) => if inverse.card.ToOne? && rid == owner then 1 else 0
      case Refs(rids) => if inverse.card.ToMany? then Occurrences(rids, owner) else 0
      case _ => 0
  }

  /** The ids of the documents of `refs` that refer to `owner`, once per
      reference, in collection order. */
  function Referrers(refs: Collection, inverse: Field, owner: Id): seq<Id>
  {
    if refs == [] then []
    else
      var last := refs[|refs| - 1];
      Referrers(refs[..|refs| - 1], inverse, owner) + Repeat(last.id, RefCount(last, inverse, owner))
  }

  /** An id is listed for `owner` exactly when it belongs to a document that
      refers to `owner`. */
  lemma {:induction false} ReferrersExact(refs: Collection, inverse: Field, owner: Id, x: Id)
    ensures x in Referrers(refs, inverse, owner) <==>
      exists d :: d in refs && d.id == x && RefCount(d, inverse, owner) > 0
    decreases |refs|
  {
    if refs != [] {
      var init, last := refs[..|refs| - 1], refs[|refs| - 1];
      assert refs == init + [last];
      ReferrersExact(init, inverse, owner, x);
      var hits := Repeat(last.id, RefCount(last, inverse, owner));
      if x in hits {
        assert x == last.id;
        assert last in refs;
      }
      if exists d :: d in refs && d.id == x && RefCount(d, inverse, owner) > 0 {
        var d :| d in refs && d.id == x && RefCount(d, inverse, owner) > 0;
        if d == last {
          assert hits[0] in hits;
        } else {
          assert d in init;
        }
      }
    }
  }

  // ---- the entry of one relationship ------------------------------------------

  /** Appends `hits` to the list of `owner`, creating the list only when
      there is something to append. */
  function AddHits(e: map<Id, seq<Id>>, owner: Id, hits: seq<Id>): map<Id, seq<Id>> {
    if hits == [] then e else e[owner := (if owner in e then e[owner] else []) + hits]
  }

  lemma AddHitsConcat(e: map<Id, seq<Id>>, owner: Id, a: seq<Id>, b: seq<Id>)
    ensures AddHits(e, owner, a + b) == AddHits(AddHits(e, owner, a), owner, b)
  {
    if a == [] {
      assert a + b == b;
    } else if b == [] {
      assert a + b == a;
    } else {
      var pre := if owner in e then e[owner] else [];
      assert pre + (a + b) == (pre + a) + b;
    }
  }

  /** The preloaded entry of one relationship: owners in order, each with the
      documents that refer to it. */
  function Entry(owners: seq<Id>, refs: Collection, inverse: Field): map<Id, seq<Id>> {
    if owners == [] then map[]
    else
      var last := owners[|owners| - 1];
      AddHits(Entry(owners[..|owners| - 1], refs, inverse), last, Referrers(refs, inverse, last))
  }

  predicate Distinct(ids: seq<Id>) {
    forall i, j :: 0 <= i < j < |ids| ==> ids[i] != ids[j]
  }

  /** The entry lists exactly the owners something refers to, and for
      distinct owners each list is the owner's referrers. */
  lemma {:induction false} EntryExact(owners: seq<Id>, refs: Collection, inverse: Field, owner: Id)
    ensures owner in Entry(owners, refs, inverse) <==> owner in owners && Referrers(refs, inverse, owner) != []
    ensures Distinct(owners) && owner in Entry(owners, refs, inverse) ==>
      Entry(owners, refs, inverse)[owner] == Referrers(refs, inverse, owner)
    decreases |owners|
  {
    if owners != [] {
      var init, last := owners[..|owners| - 1], owners[|owners| - 1];
      assert owners == init + [last];
      EntryExact(init, refs, inverse, owner);
      if Distinct(owners) {
        assert Distinct(init);
        if owner == last {
          assert owner !in init;
        }
      }
    }
  }

  /** The owners of a batch of models: their ids, in order. */
  function Owners(models: seq<Doc>): (r: seq<Id>)
    ensures |r| == |models| && forall i :: 0 <= i < |models| ==> r[i] == models[i].id
  {
    if models == [] then [] else Owners(models[..|models| - 1]) + [models[|models| - 1].id]
  }

  /** The query for the related documents that may refer to an owner
      (controller.go:1604-1621): the inverse field holds one of the owners,
      and soft-deleted documents are left out. */
  function InverseQuery(inverse: Field, owners: seq<Id>, softDelete: Option<string>): Query {
    [FieldIn(inverse.bson, ListQuery.RefValues(owners))]
    + (if softDelete.Some? then [FieldIs(softDelete.value, Null)] else [])
  }

  /** A document that refers to an owner and is not soft deleted is found by
      the inverse query. */
  lemma ReferrerFound(d: Doc, inverse: Field, owners: seq<Id>, owner: Id, softDelete: Option<string>)
    requires owner in owners && RefCount(d, inverse, owner) > 0
    ensures Matches(d, InverseQuery(inverse, owners, softDelete)) <==>
      (softDelete.Some? ==> Get(d, softDelete.value) == Null)
  {
    var vs := ListQuery.RefValues(owners);
    var i :| 0 <= i < |owners| && owners[i] == owner;
    assert vs[i] == Ref(owner);
    match Get(d, inverse.bson) {
      case Ref(rid) => assert rid == owner;
      case Refs(rids) => assert owner in rids;
      case _ => assert false;
    }
    assert ValueMatches(Get(d, inverse.bson), vs[i]);
    assert CondMatches(d, FieldIn(inverse.bson, vs));
    var q := InverseQuery(inverse, owners, softDelete);
    if softDelete.Some? {
      assert q == [FieldIn(inverse.bson, vs), FieldIs(softDelete.value, Null)];
      if Matches(d, q) {
        assert CondMatches(d, q[1]);
      }
    } else {
      assert q == [FieldIn(inverse.bson, vs)];
    }
  }

  /** The entry of has-one/has-many field `f` (controller.go:1589-1674);
      a missing related controller or inverse relationship is an internal error. */
  function RelEntry(f: Field, related: map<string, Related>, owners: seq<Id>): (r: Result<map<Id, seq<Id>>, Abort>)
    ensures r.Err? ==> r.error.status == 500
    ensures r.Ok? <==> f.relType in related && RelationshipNamed(related[f.relType].meta, f.relInverse).Some?
  {
    if f.relType !in related then Err(Internal("missing related controller " + f.relType))
    else
      var rc := related[f.relType];
      match RelationshipNamed(rc.meta, f.relInverse)
      case None => Err(Internal("no relationship matching the inverse name " + f.relInverse))
      case Some(inverse) =>
        Ok(Entry(owners, Filter(rc.docs, InverseQuery(inverse, owners, rc.softDelete)), inverse))
  }

  /** For distinct owners, the preloaded list of an owner names exactly the
      related documents whose inverse field refers to it and that are not
      soft deleted. */
  lemma PreloadedReferrers(f: Field, related: map<string, Related>, owners: seq<Id>, owner: Id, x: Id)
    requires RelEntry(f, related, owners).Ok? && Distinct(owners) && owner in owners
    ensures var rc := related[f.relType];
      var inverse := RelationshipNamed(rc.meta, f.relInverse).value;
      var e := RelEntry(f, related, owners).value;
      (owner in e && x in e[owner]) <==>
        exists d :: d in rc.docs && d.id == x && RefCount(d, inverse, owner) > 0 &&
          (rc.softDelete.Some? ==> Get(d, rc.softDelete.value) == Null)
  {
    var rc := related[f.relType];
    var inverse := RelationshipNamed(rc.meta, f.relInverse).value;
    var q := InverseQuery(inverse, owners, rc.softDelete);
    var refs := Filter(rc.docs, q);
    EntryExact(owners, refs, inverse, owner);
    ReferrersExact(refs, inverse, owner, x);
    if exists d :: d in rc.docs && d.id == x && RefCount(d, inverse, owner) > 0 &&
         (rc.softDelete.Some? ==> Get(d, rc.softDelete.value) == Null) {
      var d :| d in rc.docs && d.id == x && RefCount(d, inverse, owner) > 0 &&
        (rc.softDelete.Some? ==> Get(d, rc.softDelete.value) == Null);
      ReferrerFound(d, inverse, owners, owner, rc.softDelete);
      assert d in refs;
    }
    if owner in RelEntry(f, related, owners).value && x in RelEntry(f, related, owners).value[owner] {
      var d :| d in refs && d.id == x && RefCount(d, inverse, owner) > 0;
      ReferrerFound(d, inverse, owners, owner, rc.softDelete);
    }
  }

  // ---- the whole preload ----------------------------------------------------

  /** The relationship names among the readable fields (controller.go:1563-1575);
      an unknown field name is an internal error. */
  function RelNames(m: Meta, readable: seq<string>): (r: Result<seq<string>, Abort>)
    ensures r.Ok? <==> forall n :: n in readable ==> FieldNamed(m, n).Some?
    ensures r.Ok? ==> forall rel :: rel in r.value <==>
      exists n :: n in readable && FieldNamed(m, n).Some? && FieldNamed(m, n).value.IsRelationship() && FieldNamed(m, n).value.relName == rel
    ensures r.Err? ==> r.error.status == 500
    decreases |readable|
  {
    if readable == [] then Ok([])
    else
      var init, last := readable[..|readable| - 1], readable[|readable| - 1];
      assert readable == init + [last];
      match RelNames(m, init)
      case Err(e) => Err(e)
      case Ok(rels) =>
        match FieldNamed(m, last)
        case None => Err(Internal("unknown readable field " + last))
        case Some(f) => Ok(rels + (if f.relName != "" then [f.relName] else []))
  }

  lemma {:induction false} RelNamesPrefixErr(m: Meta, readable: seq<string>, j: nat)
    requires j <= |readable| && RelNames(m, readable[..j]).Err?
    ensures RelNames(m, readable) == RelNames(m, readable[..j])
    decreases |readable|
  {
    if j < |readable| {
      var init := readable[..|readable| - 1];
      assert init[..j] == readable[..j];
      RelNamesPrefixErr(m, init, j);
    } else {
      assert readable[..j] == readable;
    }
  }

  /** Only readable has-one and has-many relationships are preloaded. */
  predicate Preloads(f: Field, relNames: seq<string>) {
    f.IsRelationship() && f.card.Virtual() && f.relName in relNames
  }

  function PreloadFields(fields: seq<Field>, relNames: seq<string>, related: map<string, Related>, owners: seq<Id>): (r: Result<Preloaded, Abort>)
    ensures r.Err? ==> r.error.status == 500
    decreases |fields|
  {
    if fields == [] then Ok(map[])
    else
      var init, f := fields[..|fields| - 1], fields[|fields| - 1];
      assert fields == init + [f];
      match PreloadFields(init, relNames, related, owners)
      case Err(e) => Err(e)
      case Ok(p) =>
        if !Preloads(f, relNames) then Ok(p)
        else match RelEntry(f, related, owners)
          case Err(e) => Err(e)
          case Ok(entry) => Ok(p[f.relName := entry])
  }

  lemma {:induction false} PreloadFieldsPrefixErr(fields: seq<Field>, relNames: seq<string>, related: map<string, Related>, owners: seq<Id>, j: nat)
    requires j <= |fields| && PreloadFields(fields[..j], relNames, related, owners).Err?
    ensures PreloadFields(fields, relNames, related, owners) == PreloadFields(fields[..j], relNames, related, owners)
    decreases |fields|
  {
    if j < |fields| {
      var init := fields[..|fields| - 1];
      assert init[..j] == fields[..j];
      PreloadFieldsPrefixErr(init, relNames, related, owners, j);
    } else {
      assert fields[..j] == fields;
    }
  }

  /** With distinct relationship names, the entry preloaded for a field is
      the field's own. */
  lemma {:induction false} PreloadFieldsEntry(fields: seq<Field>, relNames: seq<string>, related: map<string, Related>, owners: seq<Id>, k: nat)
    requires forall i, j :: 0 <= i < j < |fields| && fields[i].relName != "" ==> fields[i].relName != fields[j].relName
    requires k < |fields| && Preloads(fields[k], relNames) && PreloadFields(fields, relNames, related, owners).Ok?
    ensures RelEntry(fields[k], related, owners).Ok?
    ensures fields[k].relName in PreloadFields(fields, relNames, related, owners).value
    ensures PreloadFields(fields, relNames, related, owners).value[fields[k].relName] == RelEntry(fields[k], related, owners).value
    decreases |fields|
  {
    var n := |fields| - 1;
    var init := fields[..n];
    assert fields == init + [fields[n]];
    assert PreloadFields(init, relNames, related, owners).Ok?;
    if k < n {
      assert init[k] == fields[k];
      PreloadFieldsEntry(init, relNames, related, owners, k);
      assert fields[k].relName != fields[n].relName;
    }
  }

  /** Preloading fails only when some preloaded relationship lacks its
      related controller or inverse relationship. */
  lemma {:induction false} PreloadFieldsSucceeds(fields: seq<Field>, relNames: seq<string>, related: map<string, Related>, owners: seq<Id>)
    requires forall k :: 0 <= k < |fields| && Preloads(fields[k], relNames) ==> RelEntry(fields[k], related, owners).Ok?
    ensures PreloadFields(fields, relNames, related, owners).Ok?
    decreases |fields|
  {
    if fields != [] {
      var n := |fields| - 1;
      assert fields == fields[..n] + [fields[n]];
      PreloadFieldsSucceeds(fields[..n], relNames, related, owners);
    }
  }

  /** preloadRelationships as a value: the readable has-one/has-many
      relationships, each mapped to its entry for the models' ids. */
  function Preload(m: Meta, readable: seq<string>, related: map<string, Related>, models: seq<Doc>): (r: Result<Preloaded, Abort>)
    ensures r.Err? ==> r.error.status == 500
  {
    var relNames :- RelNames(m, readable);
    PreloadFields(m.fields, relNames, related, Owners(models))
  }

  /** A readable has-one/has-many field is preloaded exactly when its related
      controller and inverse relationship exist, and its entry is then the
      one of RelEntry. */
  lemma PreloadCovers(m: Meta, readable: seq<string>, related: map<string, Related>, models: seq<Doc>, f: Field)
    requires WellFormed(m) && f in m.fields && f.card.Virtual() && f.name in readable
    requires Preload(m, readable, related, models).Ok?
    ensures RelEntry(f, related, Owners(models)).Ok?
    ensures f.relName in Preload(m, readable, related, models).value
    ensures Preload(m, readable, related, models).value[f.relName] == RelEntry(f, related, Owners(models)).value
  {
    FieldNamedUnique(m, f);
    var relNames := RelNames(m, readable).value;
    assert f.relName in relNames;
    var k :| 0 <= k < |m.fields| && m.fields[k] == f;
    PreloadFieldsEntry(m.fields, relNames, related, Owners(models), k);
  }

  /** The loop that collects the relationship names of the readable fields. */
  method ReadableRelationships(m: Meta, readable: seq<string>) returns (r: Result<seq<string>, Abort>)
    ensures r == RelNames(m, readable)
  {
    var rels: seq<string> := [];
    var i := 0;
    while i < |readable|
      invariant 0 <= i <= |readable|
      invariant RelNames(m, readable[..i]) == Ok(rels)
    {
      assert readable[..i + 1][..i] == readable[..i];
      assert readable[..i + 1][i] == readable[i];
      var f := FieldNamed(m, readable[i]);
      if f.None? {
        RelNamesPrefixErr(m, readable, i + 1);
        return Err(Internal("unknown readable field " + readable[i]));
      }
      ghost var next := rels + (if f.value.relName != "" then [f.value.relName] else []);
      assert RelNames(m, readable[..i + 1]) == Ok(next);
      if f.value.relName != "" {
        rels := rels + [f.value.relName];
      }
      assert rels == next;
      i := i + 1;
    }
    assert readable[..|readable|] == readable;
    return Ok(rels);
  }

  /** The ids of the models, in order. */
  method CollectIds(models: seq<Doc>) returns (ids: seq<Id>)
    ensures ids == Owners(models)
  {
    ids := [];
    var i := 0;
    while i < |models|
      invariant 0 <= i <= |models|
      invariant ids == Owners(models[..i])
    {
      assert models[..i + 1][..i] == models[..i];
      ids := ids + [models[i].id];
      i := i + 1;
    }
    assert models[..|models|] == models;
  }

  /** The references of one to-many document to `owner` (controller.go:1657-1669). */
  method AddManyHits(e: map<Id, seq<Id>>, owner: Id, d: Doc, inverse: Field) returns (e2: map<Id, seq<Id>>)
    requires inverse.card.ToMany?
    ensures e2 == AddHits(e, owner, Repeat(d.id, RefCount(d, inverse, owner)))
  {
    var v := Get(d, inverse.bson);
    if !v.Refs? {
      return e;
    }
    e2 := AddIdHits(e, owner, d.id, v.ids);
  }

  /** One hit for `id` per occurrence of `owner` in `rids` (controller.go:1659-1668). */
  method AddIdHits(e: map<Id, seq<Id>>, owner: Id, id: Id, rids: seq<Id>) returns (e2: map<Id, seq<Id>>)
    ensures e2 == AddHits(e, owner, Repeat(id, if owner.IsZero() then 0 else Occurrences(rids, owner)))
  {
    e2 := e;
    var k := 0;
    ghost var n: nat := 0;
    while k < |rids|
      invariant 0 <= k <= |rids|
      invariant n == (if owner.IsZero() then 0 else Occurrences(rids[..k], owner))
      invariant e2 == AddHits(e, owner, Repeat(id, n))
    {
      OccurrencesStep(rids, k, owner);
      if !rids[k].IsZero() && rids[k] == owner {
        AddHitsConcat(e, owner, Repeat(id, n), [id]);
        assert Repeat(id, n + 1) == Repeat(id, n) + [id];
        e2 := AddHits(e2, owner, [id]);
        n := n + 1;
      }
      k := k + 1;
    }
    assert rids[..|rids|] == rids;
  }

  lemma OccurrencesStep(ids: seq<Id>, k: nat, x: Id)
    requires k < |ids|
    ensures Occurrences(ids[..k + 1], x) == Occurrences(ids[..k], x) + (if ids[k] == x then 1 else 0)
  {
    assert ids[..k + 1][..k] == ids[..k];
  }

  /** All references of the related documents to `owner` (controller.go:1646-1670). */
  method AddReferrers(e: map<Id, seq<Id>>, owner: Id, refs: Collection, inverse: Field) returns (e2: map<Id, seq<Id>>)
    ensures e2 == AddHits(e, owner, Referrers(refs, inverse, owner))
  {
    e2 := e;
    var j := 0;
    while j < |refs|
      invariant 0 <= j <= |refs|
      invariant e2 == AddHits(e, owner, Referrers(refs[..j], inverse, owner))
    {
      assert refs[..j + 1][..j] == refs[..j];
      var ref := refs[j];
      ghost var before := Referrers(refs[..j], inverse, owner);
      assert refs[..j + 1][j] == ref;
      assert Referrers(refs[..j + 1], inverse, owner) == before + Repeat(ref.id, RefCount(ref, inverse, owner));
      AddHitsConcat(e, owner, before, Repeat(ref.id, RefCount(ref, inverse, owner)));
      if inverse.card.ToOne? {
        var v := Get(ref, inverse.bson);
        if v.Ref? && !v.id.IsZero() && v.id == owner {
          assert Repeat(ref.id, 1) == [ref.id];
          e2 := AddHits(e2, owner, [ref.id]);
        } else {
          assert RefCount(ref, inverse, owner) == 0;
        }
      }
      if inverse.card.ToMany? {
        e2 := AddManyHits(e2, owner, ref, inverse);
      }
      j := j + 1;
    }
    assert refs[..|refs|] == refs;
  }

  /** The entry of one relationship, owner by owner (controller.go:1640-1671). */
  method CollectEntry(owners: seq<Id>, refs: Collection, inverse: Field) returns (entry: map<Id, seq<Id>>)
    ensures entry == Entry(owners, refs, inverse)
  {
    entry := map[];
    var i := 0;
    while i < |owners|
      invariant 0 <= i <= |owners|
      invariant entry == Entry(owners[..i], refs, inverse)
    {
      assert owners[..i + 1][..i] == owners[..i];
      entry := AddReferrers(entry, owners[i], refs, inverse);
      i := i + 1;
    }
    assert owners[..|owners|] == owners;
  }

  /** One relationship of the preload loop (controller.go:1589-1674). */
  method PreloadRelationship(f: Field, related: map<string, Related>, owners: seq<Id>) returns (r: Result<map<Id, seq<Id>>, Abort>)
    ensures r == RelEntry(f, related, owners)
  {
    if f.relType !in related {
      return Err(Internal("missing related controller " + f.relType));
    }
    var rc := related[f.relType];
    var inverse := RelationshipNamed(rc.meta, f.relInverse);
    if inverse.None? {
      return Err(Internal("no relationship matching the inverse name " + f.relInverse));
    }
    var refs := Filter(rc.docs, InverseQuery(inverse.value, owners, rc.softDelete));
    var entry := CollectEntry(owners, refs, inverse.value);
    return Ok(entry);
  }

  /** controller.go:1552-1678. The relationships are visited in declaration
      order. */
  method PreloadRelationships(m: Meta, readable: seq<string>, related: map<string, Related>, models: seq<Doc>) returns (r: Result<Preloaded, Abort>)
    ensures r == Preload(m, readable, related, models)
  {
    var relNames :- ReadableRelationships(m, readable);
    var owners := CollectIds(models);
    var acc: Preloaded := map[];
    var i := 0;
    while i < |m.fields|
      invariant 0 <= i <= |m.fields|
      invariant PreloadFields(m.fields[..i], relNames, related, owners) == Ok(acc)
    {
      assert m.fields[..i + 1][..i] == m.fields[..i];
      assert m.fields[..i + 1][i] == m.fields[i];
      var f := m.fields[i];
      if Preloads(f, relNames) {
        var entry := PreloadRelationship(f, related, owners);
        if entry.Err? {
          assert PreloadFields(m.fields[..i + 1], relNames, related, owners) == Err(entry.error);
          PreloadFieldsPrefixErr(m.fields, relNames, related, owners, i + 1);
          return Err(entry.error);
        }
        assert PreloadFields(m.fields[..i + 1], relNames, related, owners) == Ok(acc[f.relName := entry.value]);
        acc := acc[f.relName := entry.value];
      } else {
        assert PreloadFields(m.fields[..i + 1], relNames, related, owners) == Ok(acc);
      }
      i := i + 1;
    }
    assert m.fields[..|m.fields|] == m.fields;
    return Ok(acc);
  }

  // ---- constructing a resource ------------------------------------------------

  /** Resource identifiers of type `rtype` for `ids`, in order. */
  function Identifiers(rtype: string, ids: seq<Id>): (r: seq<Resource>)
    ensures |r| == |ids| && forall i :: 0 <= i < |ids| ==> r[i] == Identifier(rtype, ids[i])
  {
    if ids == [] then [] else Identifiers(rtype, ids[..|ids| - 1]) + [Identifier(rtype, ids[|ids| - 1])]
  }

  /** The resource's own path, under the request prefix when there is one. */
  function BaseLink(prefix: string, plural: string, id: Id): string {
    (if prefix != "" then "/" + prefix else "") + "/" + plural + "/" + Hex(id)
  }

  /** The self and related links of relationship `rel`. */
  function RelLinks(base: string, rel: string): (l: Links)
    ensures l.self == base + "/relationships/" + rel && l.related == base + "/" + rel
    ensures l.first == l.prev == l.next == l.last == ""
  {
    NoLinks.(self := base + "/relationships/" + rel, related := base + "/" + rel)
  }

  /** The preloaded references of `id` through `rel`, none when absent. */
  function PreloadedRefs(pre: Preloaded, rel: string, id: Id): seq<Id> {
    if rel in pre && id in pre[rel] then pre[rel][id] else []
  }

  const HasOneOverflow := Internal("has one relationship returned more than one result")

  /** The data of relationship `f` of document `d` (controller.go:1762-1889):
      stored references for to-one and to-many, preloaded ones for has-one
      and has-many, which render empty when nothing was preloaded. */
  function RelData(f: Field, d: Doc, pre: Option<Preloaded>): (r: Result<Hybrid, Abort>)
    ensures r.Err? ==> f.card.HasOne? && pre.Some? && |PreloadedRefs(pre.value, f.relName, d.id)| > 1 && r.error == HasOneOverflow
    ensures f.card.HasOne? && pre.Some? && |PreloadedRefs(pre.value, f.relName, d.id)| > 1 ==> r.Err?
    ensures r.Ok? && (f.card.ToOne? || f.card.HasOne?) ==> r.value.One?
    ensures r.Ok? && (f.card.ToMany? || f.card.HasMany?) ==> r.value.Many?
  {
    match f.card
    case ToOne(optional) =>
      (match Get(d, f.bson)
       case Ref(id) => Ok(One(Some(Identifier(f.relType, id))))
       case _ => Ok(One(if optional then None else Some(Identifier(f.relType, Zero)))))
    case ToMany =>
      (match Get(d, f.bson)
       case Refs(ids) => Ok(Many(Identifiers(f.relType, ids)))
       case _ => Ok(Many([])))
    case HasOne =>
      if pre.None? then Ok(One(None))
      else
        var refs := PreloadedRefs(pre.value, f.relName, d.id);
        if |refs| > 1 then Err(HasOneOverflow)
        else if |refs| == 1 then Ok(One(Some(Identifier(f.relType, refs[0]))))
        else Ok(One(None))
    case HasMany =>
      if pre.None? then Ok(Many([]))
      else Ok(Many(Identifiers(f.relType, PreloadedRefs(pre.value, f.relName, d.id))))
    case NoRel =>
      // not a relationship: a well-formed descriptor never renders one
      Ok(One(None))
  }

  /** The relationships of a resource are those whose name is whitelisted. */
  predicate Rendered(f: Field, wl: seq<string>) {
    f.IsRelationship() && f.relName in wl
  }

  /** The relationship documents of `d`, field by field; the first
      has-one overflow aborts. */
  function RelDocs(fields: seq<Field>, wl: seq<string>, base: string, d: Doc, pre: Option<Preloaded>): (r: Result<map<string, Document>, Abort>)
    ensures r.Err? ==> r.error == HasOneOverflow
    decreases |fields|
  {
    if fields == [] then Ok(map[])
    else
      var init, f := fields[..|fields| - 1], fields[|fields| - 1];
      match RelDocs(init, wl, base, d, pre)
      case Err(e) => Err(e)
      case Ok(docs) =>
        if !Rendered(f, wl) then Ok(docs)
        else match RelData(f, d, pre)
          case Err(e) => Err(e)
          case Ok(data) => Ok(docs[f.relName := Document(Some(data), RelLinks(base, f.relName))])
  }

  /** The relationships rendered are exactly the whitelisted ones. */
  lemma {:induction false} RelDocsKeys(fields: seq<Field>, wl: seq<string>, base: string, d: Doc, pre: Option<Preloaded>, rel: string)
    requires RelDocs(fields, wl, base, d, pre).Ok?
    ensures rel in RelDocs(fields, wl, base, d, pre).value <==> exists f :: f in fields && Rendered(f, wl) && f.relName == rel
    decreases |fields|
  {
    if fields != [] {
      var n := |fields| - 1;
      assert fields == fields[..n] + [fields[n]];
      RelDocsKeys(fields[..n], wl, base, d, pre, rel);
    }
  }

  /** With distinct relationship names, a rendered relationship holds its
      own data and links. */
  lemma {:induction false} RelDocsEntry(fields: seq<Field>, wl: seq<string>, base: string, d: Doc, pre: Option<Preloaded>, k: nat)
    requires forall i, j :: 0 <= i < j < |fields| && fields[i].relName != "" ==> fields[i].relName != fields[j].relName
    requires k < |fields| && Rendered(fields[k], wl) && RelDocs(fields, wl, base, d, pre).Ok?
    ensures RelData(fields[k], d, pre).Ok?
    ensures fields[k].relName in RelDocs(fields, wl, base, d, pre).value
    ensures RelDocs(fields, wl, base, d, pre).value[fields[k].relName] ==
      Document(Some(RelData(fields[k], d, pre).value), RelLinks(base, fields[k].relName))
    decreases |fields|
  {
    var n := |fields| - 1;
    var init := fields[..n];
    assert fields == init + [fields[n]];
    assert RelDocs(init, wl, base, d, pre).Ok?;
    if k < n {
      assert init[k] == fields[k];
      RelDocsEntry(init, wl, base, d, pre, k);
      assert fields[k].relName != fields[n].relName;
    }
  }

  /** Rendering fails only through a has-one overflow of a rendered field. */
  lemma {:induction false} RelDocsSucceeds(fields: seq<Field>, wl: seq<string>, base: string, d: Doc, pre: Option<Preloaded>)
    requires forall k :: 0 <= k < |fields| && Rendered(fields[k], wl) ==> RelData(fields[k], d, pre).Ok?
    ensures RelDocs(fields, wl, base, d, pre).Ok?
    decreases |fields|
  {
    if fields != [] {
      var n := |fields| - 1;
      assert fields == fields[..n] + [fields[n]];
      RelDocsSucceeds(fields[..n], wl, base, d, pre);
    }
  }

  /** The JSON keys of the whitelisted attributes. */
  function AttributeKeys(m: Meta, wl: seq<string>): set<string> {
    set f | f in m.fields && f.IsAttribute() && f.jsonKey in wl :: f.jsonKey
  }

  /** The whitelisted attributes of `d` by JSON key (the jsonapi library's
      StructToMap). */
  function Attributes(m: Meta, wl: seq<string>, d: Doc): (r: map<string, Value>)
    ensures r.Keys == AttributeKeys(m, wl)
  {
    map k | k in AttributeKeys(m, wl) ::
      match AttributeNamed(m, k)
      case Some(f) => Get(d, f.bson)
      case None => Null
  }

  /** The resource for document `d` (controller.go:1708-1893). */
  function Construct(m: Meta, readable: seq<string>, prefix: string, d: Doc, pre: Option<Preloaded>): (r: Result<Resource, Abort>)
    ensures r.Ok? ==> r.value.rtype == m.plural && r.value.id == Hex(d.id)
    ensures r.Err? ==> r.error.status == 500
  {
    var wl :- Assign.Whitelist(m, readable, "readable");
    var rels :- RelDocs(m.fields, wl, BaseLink(prefix, m.plural, d.id), d, pre);
    Ok(Resource(m.plural, Hex(d.id), Attributes(m, wl, d), rels))
  }

  /** An attribute is rendered exactly when its JSON key is whitelisted, with
      the value stored under its storage key. */
  lemma RenderedAttribute(m: Meta, readable: seq<string>, prefix: string, d: Doc, pre: Option<Preloaded>, f: Field)
    requires WellFormed(m) && f in m.fields && f.IsAttribute()
    requires Construct(m, readable, prefix, d, pre).Ok?
    ensures var wl := Assign.Whitelist(m, readable, "readable").value;
      var res := Construct(m, readable, prefix, d, pre).value;
      (f.jsonKey in res.attributes <==> f.jsonKey in wl) &&
      (f.jsonKey in res.attributes ==> res.attributes[f.jsonKey] == Get(d, f.bson))
  {
    AttributeNamedUnique(m, f);
  }

  /** A readable relationship renders under its name with its self and
      related links and its data. */
  lemma RenderedRelationship(m: Meta, readable: seq<string>, prefix: string, d: Doc, pre: Option<Preloaded>, f: Field)
    requires WellFormed(m) && f in m.fields && f.IsRelationship() && f.name in readable
    requires Construct(m, readable, prefix, d, pre).Ok?
    ensures var res := Construct(m, readable, prefix, d, pre).value;
      var base := BaseLink(prefix, m.plural, d.id);
      && f.relName in res.relationships
      && res.relationships[f.relName].links == RelLinks(base, f.relName)
      && RelData(f, d, pre).Ok?
      && res.relationships[f.relName].data == Some(RelData(f, d, pre).value)
  {
    var wl := Assign.Whitelist(m, readable, "readable").value;
    ReadableKeys(m, readable, f);
    var base := BaseLink(prefix, m.plural, d.id);
    var k :| 0 <= k < |m.fields| && m.fields[k] == f;
    RelDocsEntry(m.fields, wl, base, d, pre, k);
    ConstructRels(m, readable, prefix, d, pre);
  }

  lemma ConstructRels(m: Meta, readable: seq<string>, prefix: string, d: Doc, pre: Option<Preloaded>)
    requires Construct(m, readable, prefix, d, pre).Ok?
    ensures Assign.Whitelist(m, readable, "readable").Ok?
    ensures var wl := Assign.Whitelist(m, readable, "readable").value;
      var rels := RelDocs(m.fields, wl, BaseLink(prefix, m.plural, d.id), d, pre);
      rels.Ok? && Construct(m, readable, prefix, d, pre).value.relationships == rels.value
  {
  }

  /** The keys of a readable field are whitelisted. */
  lemma ReadableKeys(m: Meta, readable: seq<string>, f: Field)
    requires WellFormed(m) && f in m.fields && f.name in readable
    requires Assign.Whitelist(m, readable, "readable").Ok?
    ensures f.relName in Assign.OwnKeys(f) ==> f.relName in Assign.Whitelist(m, readable, "readable").value
    ensures f.jsonKey in Assign.OwnKeys(f) ==> f.jsonKey in Assign.Whitelist(m, readable, "readable").value
  {
    FieldNamedUnique(m, f);
  }


  /** Without a preload map a has-one renders null and a has-many an empty
      list, whatever the related documents hold. */
  lemma UnpreloadedRelationship(m: Meta, readable: seq<string>, prefix: string, d: Doc, f: Field)
    requires WellFormed(m) && f in m.fields && f.card.Virtual() && f.name in readable
    requires Construct(m, readable, prefix, d, None).Ok?
    ensures var res := Construct(m, readable, prefix, d, None).value;
      && f.relName in res.relationships
      && res.relationships[f.relName].data == Some(if f.card.HasOne? then One(None) else Many([]))
  {
    RenderedRelationship(m, readable, prefix, d, None, f);
  }

  /** A readable has-one with more than one preloaded reference is an
      internal error. */
  lemma HasOneOverflowAborts(m: Meta, readable: seq<string>, prefix: string, d: Doc, p: Preloaded, f: Field)
    requires WellFormed(m) && f in m.fields && f.card.HasOne? && f.name in readable
    requires Assign.Whitelist(m, readable, "readable").Ok?
    requires |PreloadedRefs(p, f.relName, d.id)| > 1
    ensures Construct(m, readable, prefix, d, Some(p)) == Err(HasOneOverflow)
  {
    if Construct(m, readable, prefix, d, Some(p)).Ok? {
      RenderedRelationship(m, readable, prefix, d, Some(p), f);
    }
  }

  /** Without a preload map nothing can overflow: a resource always renders
      once its readable fields are known. */
  lemma RendersWithoutPreload(m: Meta, readable: seq<string>, prefix: string, d: Doc)
    requires Assign.Whitelist(m, readable, "readable").Ok?
    ensures Construct(m, readable, prefix, d, None).Ok?
  {
    var wl := Assign.Whitelist(m, readable, "readable").value;
    RelDocsSucceeds(m.fields, wl, BaseLink(prefix, m.plural, d.id), d, None);
  }

  /** Preloading and rendering together: a readable has-many of a loaded model
      lists, as identifiers, exactly the related documents that refer to the
      model and are not soft deleted. */
  lemma PreloadedHasMany(m: Meta, readable: seq<string>, related: map<string, Related>, models: seq<Doc>, i: nat, prefix: string, f: Field, x: Id)
    requires WellFormed(m) && f in m.fields && f.card.HasMany? && f.name in readable
    requires UniqueIds(models) && i < |models|
    requires Preload(m, readable, related, models).Ok?
    requires Construct(m, readable, prefix, models[i], Some(Preload(m, readable, related, models).value)).Ok?
    ensures f.relType in related && RelationshipNamed(related[f.relType].meta, f.relInverse).Some?
    ensures f.relName in Construct(m, readable, prefix, models[i], Some(Preload(m, readable, related, models).value)).value.relationships
    ensures var p := Preload(m, readable, related, models).value;
      var res := Construct(m, readable, prefix, models[i], Some(p)).value;
      var refs := PreloadedRefs(p, f.relName, models[i].id);
      var rc := related[f.relType];
      var inverse := RelationshipNamed(rc.meta, f.relInverse).value;
      && res.relationships[f.relName].data == Some(Many(Identifiers(f.relType, refs)))
      && (x in refs <==>
            exists doc :: doc in rc.docs && doc.id == x && RefCount(doc, inverse, models[i].id) > 0 &&
              (rc.softDelete.Some? ==> Get(doc, rc.softDelete.value) == Null))
  {
    var p := Preload(m, readable, related, models).value;
    var d := models[i];
    PreloadCovers(m, readable, related, models, f);
    RenderedRelationship(m, readable, prefix, d, Some(p), f);
    HasManyData(f, d, p);
    PreloadedRefsExact(f, related, models, i, p, x);
  }

  /** A has-many relationship renders its preloaded references. */
  lemma HasManyData(f: Field, d: Doc, p: Preloaded)
    requires f.card.HasMany?
    ensures RelData(f, d, Some(p)) == Ok(Many(Identifiers(f.relType, PreloadedRefs(p, f.relName, d.id))))
  {
  }

  /** The preloaded list of a model names exactly the live related documents
      that refer to it. */
  lemma {:induction false} PreloadedRefsExact(f: Field, related: map<string, Related>, models: seq<Doc>, i: nat, p: Preloaded, x: Id)
    requires UniqueIds(models) && i < |models|
    requires RelEntry(f, related, Owners(models)).Ok?
    requires f.relName in p && p[f.relName] == RelEntry(f, related, Owners(models)).value
    ensures f.relType in related && RelationshipNamed(related[f.relType].meta, f.relInverse).Some?
    ensures var rc := related[f.relType];
      var inverse := RelationshipNamed(rc.meta, f.relInverse).value;
      x in PreloadedRefs(p, f.relName, models[i].id) <==>
        exists doc :: doc in rc.docs && doc.id == x && RefCount(doc, inverse, models[i].id) > 0 &&
          (rc.softDelete.Some? ==> Get(doc, rc.softDelete.value) == Null)
  {
    var owners := Owners(models);
    assert owners[i] == models[i].id;
    PreloadedReferrers(f, related, owners, models[i].id, x);
  }

  /** controller.go:1691-1706: one resource per model, in order; the first
      model that cannot be rendered aborts. */
  method ResourcesForModels(m: Meta, readable: seq<string>, prefix: string, models: seq<Doc>, pre: Option<Preloaded>) returns (r: Result<seq<Resource>, Abort>)
    ensures r.Ok? ==> |r.value| == |models|
    ensures r.Ok? ==> forall i :: 0 <= i < |models| ==> Construct(m, readable, prefix, models[i], pre) == Ok(r.value[i])
    ensures r.Err? ==> exists i :: 0 <= i < |models| && Construct(m, readable, prefix, models[i], pre) == Err(r.error)
  {
    var resources: seq<Resource> := [];
    var i := 0;
    while i < |models|
      invariant 0 <= i <= |models| && |resources| == i
      invariant forall j :: 0 <= j < i ==> Construct(m, readable, prefix, models[j], pre) == Ok(resources[j])
    {
      var res := Construct(m, readable, prefix, models[i], pre);
      if res.Err? {
        return Err(res.error);
      }
      resources := resources + [res.value];
      i := i + 1;
    }
    return Ok(resources);
  }
}
