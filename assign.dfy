/** Writing a submitted resource into the model (controller.go:1401-1550):
    attributes and relationships are checked against the model and the
    writable fields, then stored. */
module Assign {
  import opened Wrappers
  import opened ObjectIds
  import opened Documents
  import opened ModelMeta
  import opened JsonApi
  import opened ToMany

  // ---- the whitelist -------------------------------------------------------

  /** The key a field is whitelisted under: its JSON key for an attribute,
      its relationship name for a relationship, none otherwise. */
  function OwnKeys(f: Field): (r: seq<string>)
    ensures |r| <= 1
    ensures f.IsAttribute() ==> r == [f.jsonKey]
    ensures !f.IsAttribute() && f.IsRelationship() ==> r == [f.relName]
  {
    if f.jsonKey != "" then [f.jsonKey] else if f.relName != "" then [f.relName] else []
  }

  /** The keys the writable (or readable) field names allow, in order; an
      unknown field name is an internal error. */
  function Whitelist(m: Meta, names: seq<string>, access: string): (r: Result<seq<string>, Abort>)
    ensures r.Ok? <==> forall n :: n in names ==> FieldNamed(m, n).Some?
    ensures r.Ok? ==> forall k :: k in r.value <==> exists n :: n in names && FieldNamed(m, n).Some? && k in OwnKeys(FieldNamed(m, n).value)
    ensures r.Err? ==> r.error.status == 500
    decreases |names|
  {
    if names == [] then Ok([])
    else
      var init, last := names[..|names| - 1], names[|names| - 1];
      assert names == init + [last];
      match Whitelist(m, init, access)
      case Err(e) => Err(e)
      case Ok(keys) =>
        match FieldNamed(m, last)
        case None => Err(Internal("unknown " + access + " field " + last))
        case Some(f) => Ok(keys + OwnKeys(f))
  }

  /** The loop that converts field names to keys (controller.go:1406-1423). */
  method BuildWhitelist(m: Meta, names: seq<string>, access: string) returns (r: Result<seq<string>, Abort>)
    ensures r == Whitelist(m, names, access)
  {
    var wl: seq<string> := [];
    var i := 0;
    while i < |names|
      invariant 0 <= i <= |names|
      invariant Whitelist(m, names[..i], access) == Ok(wl)
    {
      assert names[..i + 1][..i] == names[..i];
      assert names[..i + 1][i] == names[i];
      var f := FieldNamed(m, names[i]);
      if f.None? {
        WhitelistPrefixErr(m, names, access, i + 1);
        return Err(Internal("unknown " + access + " field " + names[i]));
      }
      ghost var next := wl + OwnKeys(f.value);
      assert Whitelist(m, names[..i + 1], access) == Ok(next);
      if f.value.jsonKey != "" {
        wl := wl + [f.value.jsonKey];
      } else if f.value.relName != "" {
        wl := wl + [f.value.relName];
      }
      assert wl == next;
      i := i + 1;
    }
    assert names[..|names|] == names;
    return Ok(wl);
  }

  /** An unknown name ends the conversion: later names make no difference. */
  lemma {:induction false} WhitelistPrefixErr(m: Meta, names: seq<string>, access: string, j: nat)
    requires j <= |names| && Whitelist(m, names[..j], access).Err?
    ensures Whitelist(m, names, access) == Whitelist(m, names[..j], access)
    decreases |names|
  {
    if j < |names| {
      var init := names[..|names| - 1];
      assert init[..j] == names[..j];
      WhitelistPrefixErr(m, init, access, j);
    } else {
      assert names[..j] == names;
    }
  }

  // ---- one relationship ----------------------------------------------------

  /** The identifier submitted for a to-one relationship; null or no data is the zero id. */
  function ToOneId(f: Field, doc: Document): (r: Result<Id, Abort>)
  {
    if doc.data.Some? && doc.data.value.One? && doc.data.value.one.Some? then
      RefId(doc.data.value.one.value, f.relType)
    else Ok(Zero)
  }

  /** The identifiers submitted for a to-many relationship. */
  function ManyRefs(doc: Document): seq<Resource> {
    if doc.data.Some? && doc.data.value.Many? then doc.data.value.many else []
  }

  function ParseRefs(refs: seq<Resource>, relType: string): (r: Result<seq<Id>, Abort>)
    ensures r.Ok? <==> forall i :: 0 <= i < |refs| ==> RefId(refs[i], relType).Ok?
    ensures r.Ok? ==> |r.value| == |refs| && forall i :: 0 <= i < |refs| ==> RefId(refs[i], relType) == Ok(r.value[i])
    ensures r.Err? ==> r.error.status == 400
    decreases |refs|
  {
    if refs == [] then Ok([])
    else
      var init, last := refs[..|refs| - 1], refs[|refs| - 1];
      assert forall i :: 0 <= i < |init| ==> init[i] == refs[i];
      match ParseRefs(init, relType)
      case Err(e) => Err(e)
      case Ok(ids) =>
        match RefId(last, relType)
        case Err(e) => Err(e)
        case Ok(id) => Ok(ids + [id])
  }

  lemma {:induction false} ParseRefsPrefixErr(refs: seq<Resource>, relType: string, j: nat)
    requires j <= |refs| && ParseRefs(refs[..j], relType).Err?
    ensures ParseRefs(refs, relType) == ParseRefs(refs[..j], relType)
    decreases |refs|
  {
    if j < |refs| {
      var init := refs[..|refs| - 1];
      assert init[..j] == refs[..j];
      ParseRefsPrefixErr(init, relType, j);
    } else {
      assert refs[..j] == refs;
    }
  }

  /** The stored value a relationship document asks for. */
  function RelValue(f: Field, doc: Document): (r: Result<Value, Abort>)
    requires f.card.Stored()
    ensures r.Err? ==> r.error.status == 400
  {
    match f.card
    case ToOne(optional) =>
      (match ToOneId(f, doc)
       case Err(e) => Err(e)
       case Ok(id) =>
         if !optional then Ok(Ref(id))
         else if !id.IsZero() then Ok(Ref(id))
         else Ok(Null))
    case ToMany =>
      (match ParseRefs(ManyRefs(doc), f.relType)
       case Err(e) => Err(e)
       case Ok(ids) => Ok(Refs(ids)))
  }

  /** An optional to-one with no data, null data or the zero id is stored as null. */
  lemma OptionalToOneNull(f: Field, doc: Document)
    requires f.card == ToOne(true)
    requires doc.data.None? || doc.data.value.Many? || doc.data.value.one.None?
             || (doc.data.value.one.value.rtype == f.relType && FromHex(doc.data.value.one.value.id) == Some(Zero))
    ensures RelValue(f, doc) == Ok(Null)
  {
  }

  /** A required to-one with no data is stored as the zero id. */
  lemma RequiredToOneZero(f: Field, doc: Document)
    requires f.card == ToOne(false)
    requires doc.data.None? || doc.data.value.Many? || doc.data.value.one.None?
    ensures RelValue(f, doc) == Ok(Ref(Zero))
  {
  }

  /** The conversion loop of a to-many relationship (controller.go:1524-1545). */
  method ConvertRefs(refs: seq<Resource>, relType: string) returns (r: Result<seq<Id>, Abort>)
    ensures r == ParseRefs(refs, relType)
  {
    var ids: seq<Id> := [];
    var i := 0;
    while i < |refs|
      invariant 0 <= i <= |refs|
      invariant ParseRefs(refs[..i], relType) == Ok(ids)
    {
      assert refs[..i + 1][..i] == refs[..i];
      var r := refs[i];
      if r.rtype != relType {
        ParseRefsPrefixErr(refs, relType, i + 1);
        return Err(TypeMismatch);
      }
      var relId := FromHex(r.id);
      if relId.None? {
        ParseRefsPrefixErr(refs, relType, i + 1);
        return Err(InvalidRelationshipId);
      }
      ids := ids + [relId.value];
      i := i + 1;
    }
    assert refs[..|refs|] == refs;
    return Ok(ids);
  }

  /** controller.go:1480-1550: stores a relationship document on the model;
      has-one and has-many are left alone. */
  method AssignRelationship(f: Field, doc: Document, model: Doc) returns (r: Result<Doc, Abort>)
    ensures !f.card.Stored() ==> r == Ok(model)
    ensures f.card.Stored() ==> (r.Ok? <==> RelValue(f, doc).Ok?)
    ensures f.card.Stored() && r.Ok? ==> r.value == Set(model, f.bson, RelValue(f, doc).value)
    ensures f.card.Stored() && r.Err? ==> r.error == RelValue(f, doc).error
  {
    r := Ok(model);
    if f.card.ToOne? {
      var id := Zero;
      if doc.data.Some? && doc.data.value.One? && doc.data.value.one.Some? {
        var ref := doc.data.value.one.value;
        if ref.rtype != f.relType {
          return Err(TypeMismatch);
        }
        var relId := FromHex(ref.id);
        if relId.None? {
          return Err(InvalidRelationshipId);
        }
        id := relId.value;
      }
      if !f.card.optional {
        r := Ok(Set(model, f.bson, Ref(id)));
      } else if !id.IsZero() {
        r := Ok(Set(model, f.bson, Ref(id)));
      } else {
        r := Ok(Set(model, f.bson, Null));
      }
    }
    if f.card.ToMany? {
      var ids := ConvertRefs(ManyRefs(doc), f.relType);
      if ids.Err? {
        return Err(ids.error);
      }
      r := Ok(Set(model, f.bson, Refs(ids.value)));
    }
  }

  // ---- the whole resource --------------------------------------------------

  /** Why an attribute cannot be written, if it cannot. */
  function AttrError(m: Meta, wl: seq<string>, tolerate: bool, name: string): (r: Option<Abort>)
    ensures r.Some? ==> r.value.status == 400
  {
    if AttributeNamed(m, name).None? then Some(BadRequest("invalid attribute"))
    else if name !in wl && !tolerate then Some(BadRequest("attribute is not writable"))
    else None
  }

  /** An attribute is written when it is known and whitelisted. */
  predicate AttrWritten(m: Meta, wl: seq<string>, name: string) {
    AttributeNamed(m, name).Some? && name in wl
  }

  /** A relationship is written when it is known, whitelisted and stored on the model. */
  predicate RelWritten(m: Meta, wl: seq<string>, name: string) {
    RelationshipNamed(m, name).Some? && name in wl && RelationshipNamed(m, name).value.card.Stored()
  }

  /** Why a relationship cannot be written, if it cannot. */
  function RelError(m: Meta, wl: seq<string>, tolerate: bool, name: string, doc: Document): (r: Option<Abort>)
    ensures r.Some? ==> r.value.status == 400
  {
    match RelationshipNamed(m, name)
    case None => Some(BadRequest("invalid relationship"))
    case Some(f) =>
      if !RelWritten(m, wl, name) then
        if tolerate then None else Some(BadRequest("relationship is not writable"))
      else match RelValue(f, doc)
        case Err(e) => Some(e)
        case Ok(_) => None
  }

  /** The accepted attributes, by JSON key. */
  function Accepted(m: Meta, wl: seq<string>, attrs: map<string, Value>): (r: map<string, Value>)
    ensures forall k :: k in r <==> k in attrs && AttrWritten(m, wl, k)
    ensures forall k :: k in r ==> r[k] == attrs[k]
  {
    map k | k in attrs && AttrWritten(m, wl, k) :: attrs[k]
  }

  /** Storage key `b` holds an attribute whose JSON key is among `names` in `accepted`. */
  predicate AttrSlot(m: Meta, accepted: map<string, Value>, names: set<string>, b: string) {
    && FieldStoredAt(m, b).Some?
    && FieldStoredAt(m, b).value.IsAttribute()
    && FieldStoredAt(m, b).value.jsonKey in accepted
    && FieldStoredAt(m, b).value.jsonKey in names
  }

  /** The storage keys and values the accepted attributes among `names` write. */
  function AttrPatch(m: Meta, accepted: map<string, Value>, names: set<string>): Patch {
    map b | b in StorageKeys(m) && AttrSlot(m, accepted, names, b) :: accepted[FieldStoredAt(m, b).value.jsonKey]
  }

  /** Storage key `b` holds a stored relationship among `names` that is written from `rels`. */
  predicate RelSlot(m: Meta, wl: seq<string>, rels: map<string, Document>, names: set<string>, b: string) {
    && FieldStoredAt(m, b).Some?
    && var g := FieldStoredAt(m, b).value;
    && g.IsRelationship() && g.card.Stored() && g.relName in rels && g.relName in names && g.relName in wl
    && RelValue(g, rels[g.relName]).Ok?
  }

  /** The storage keys and values the written relationships among `names` store. */
  function RelPatch(m: Meta, wl: seq<string>, rels: map<string, Document>, names: set<string>): Patch {
    map b | b in StorageKeys(m) && RelSlot(m, wl, rels, names, b)
      :: RelValue(FieldStoredAt(m, b).value, rels[FieldStoredAt(m, b).value.relName]).value
  }

  /** controller.go:1401-1478. Attributes and relationships are maps and are
      visited in no particular order; every attribute is checked before any
      relationship. */
  method AssignData(m: Meta, writable: seq<string>, tolerate: bool, res: Resource, model: Doc) returns (r: Result<Doc, Abort>)
    requires WellFormed(m)
    ensures Whitelist(m, writable, "writable").Err? ==> r == Whitelist(m, writable, "writable").PropagateFailure()
    ensures Whitelist(m, writable, "writable").Ok? ==>
      (r.Ok? <==> AttributesAccepted(m, Whitelist(m, writable, "writable").value, tolerate, res) && RelationshipsAccepted(m, Whitelist(m, writable, "writable").value, tolerate, res))
    ensures Whitelist(m, writable, "writable").Ok? && r.Err? ==>
      AttributeRejects(m, Whitelist(m, writable, "writable").value, tolerate, res, r.error) || RelationshipRejects(m, Whitelist(m, writable, "writable").value, tolerate, res, r.error)
    ensures Whitelist(m, writable, "writable").Ok? && r.Ok? ==>
      r.value == Assigned(m, Whitelist(m, writable, "writable").value, res, model)
  {
    var wlr := BuildWhitelist(m, writable, "writable");
    if wlr.Err? {
      return Err(wlr.error);
    }
    var wl := wlr.value;

    // whitelist attributes
    var accepted := CheckAttributes(m, wl, tolerate, res.attributes);
    if accepted.Err? {
      return Err(accepted.error);
    }

    // map attributes to the model (the JSON:API library's Assign)
    var doc := ApplyPatch(model, AttrPatch(m, accepted.value, accepted.value.Keys));

    // iterate relationships
    var rels := AssignRelationships(m, wl, tolerate, res.relationships, doc);
    if rels.Err? {
      return Err(rels.error);
    }
    return Ok(rels.value);
  }

  /** The model after a successful assignment: the accepted attributes, then
      the written relationships, stored under their storage keys. */
  function Assigned(m: Meta, wl: seq<string>, res: Resource, model: Doc): Doc {
    var accepted := Accepted(m, wl, res.attributes);
    ApplyPatch(ApplyPatch(model, AttrPatch(m, accepted, accepted.Keys)), RelPatch(m, wl, res.relationships, res.relationships.Keys))
  }

  predicate AttributesAccepted(m: Meta, wl: seq<string>, tolerate: bool, res: Resource) {
    forall k :: k in res.attributes ==> AttrError(m, wl, tolerate, k).None?
  }

  predicate RelationshipsAccepted(m: Meta, wl: seq<string>, tolerate: bool, res: Resource) {
    forall k :: k in res.relationships ==> RelError(m, wl, tolerate, k, res.relationships[k]).None?
  }

  predicate AttributeRejects(m: Meta, wl: seq<string>, tolerate: bool, res: Resource, e: Abort) {
    exists k :: k in res.attributes && AttrError(m, wl, tolerate, k) == Some(e)
  }

  predicate RelationshipRejects(m: Meta, wl: seq<string>, tolerate: bool, res: Resource, e: Abort) {
    exists k :: k in res.relationships && RelError(m, wl, tolerate, k, res.relationships[k]) == Some(e)
  }

  /** The attribute loop of controller.go:1425-1449. */
  method CheckAttributes(m: Meta, wl: seq<string>, tolerate: bool, attrs: map<string, Value>) returns (r: Result<map<string, Value>, Abort>)
    ensures r.Ok? <==> forall k :: k in attrs ==> AttrError(m, wl, tolerate, k).None?
    ensures r.Err? ==> exists k :: k in attrs && AttrError(m, wl, tolerate, k) == Some(r.error)
    ensures r.Ok? ==> r.value == Accepted(m, wl, attrs)
  {
    var accepted: map<string, Value> := map[];
    var done: set<string> := {};
    while done < attrs.Keys
      invariant done <= attrs.Keys
      invariant forall k :: k in done ==> AttrError(m, wl, tolerate, k).None?
      invariant forall k :: k in accepted <==> k in done && AttrWritten(m, wl, k)
      invariant forall k :: k in accepted ==> k in attrs && accepted[k] == attrs[k]
      decreases attrs.Keys - done
    {
      var name :| name in attrs.Keys && name !in done;
      var field := AttributeNamed(m, name);
      if field.None? {
        return Err(BadRequest("invalid attribute"));
      }
      if name !in wl {
        if !tolerate {
          return Err(BadRequest("attribute is not writable"));
        }
      } else {
        accepted := accepted[name := attrs[name]];
      }
      done := done + {name};
    }
    assert accepted == Accepted(m, wl, attrs);
    return Ok(accepted);
  }

  /** In a well-formed model a relationship name belongs to one field, stored under its own key. */
  lemma RelationshipOwner(m: Meta, k: string)
    requires WellFormed(m) && RelationshipNamed(m, k).Some?
    ensures FieldStoredAt(m, RelationshipNamed(m, k).value.bson) == RelationshipNamed(m, k)
    ensures forall g :: g in m.fields && g.relName == k ==> Some(g) == RelationshipNamed(m, k)
  {
    FieldStoredAtUnique(m, RelationshipNamed(m, k).value);
    forall g | g in m.fields && g.relName == k ensures Some(g) == RelationshipNamed(m, k) {
      RelationshipNamedUnique(m, g);
    }
  }

  lemma PatchSet(d: Doc, p: Patch, b: string, v: Value)
    ensures ApplyPatch(d, p[b := v]) == Set(ApplyPatch(d, p), b, v)
  {
    assert d.fields + p[b := v] == (d.fields + p)[b := v];
  }

  /** Writing one more relationship extends the patch by its storage key. */
  lemma RelPatchAdd(m: Meta, wl: seq<string>, rels: map<string, Document>, done: set<string>, k: string, f: Field)
    requires f in m.fields && f.IsRelationship() && f.card.Stored() && f.relName == k && k in rels && k in wl
    requires FieldStoredAt(m, f.bson) == Some(f)
    requires forall g :: g in m.fields && g.relName == k ==> g == f
    requires RelValue(f, rels[k]).Ok?
    ensures RelPatch(m, wl, rels, done + {k}) == RelPatch(m, wl, rels, done)[f.bson := RelValue(f, rels[k]).value]
  {
    var p := RelPatch(m, wl, rels, done);
    var q := RelPatch(m, wl, rels, done + {k});
    var p' := p[f.bson := RelValue(f, rels[k]).value];
    forall b | b in q ensures b in p' && q[b] == p'[b] {
      if b != f.bson {
        assert RelSlot(m, wl, rels, done, b);
      }
    }
    forall b | b in p' ensures b in q {
      assert RelSlot(m, wl, rels, done + {k}, b);
    }
    assert q == p';
  }

  /** Skipping a relationship leaves the patch as it is. */
  lemma RelPatchSkip(m: Meta, wl: seq<string>, rels: map<string, Document>, done: set<string>, k: string)
    requires forall g :: g in m.fields && g.relName == k ==> !(g.card.Stored() && k in wl && k in rels && RelValue(g, rels[k]).Ok?)
    ensures RelPatch(m, wl, rels, done + {k}) == RelPatch(m, wl, rels, done)
  {
    var p := RelPatch(m, wl, rels, done);
    var q := RelPatch(m, wl, rels, done + {k});
    forall b | b in q ensures b in p && q[b] == p[b] {
      assert RelSlot(m, wl, rels, done, b);
    }
    forall b | b in p ensures b in q {
      assert RelSlot(m, wl, rels, done + {k}, b);
    }
    assert q == p;
  }

  /** The model after the relationships in `order` are visited in that order. */
  function AssignInOrder(m: Meta, wl: seq<string>, rels: map<string, Document>, order: seq<string>, model: Doc): Doc
    decreases |order|
  {
    if order == [] then model
    else Visit(m, wl, rels, order[|order| - 1], AssignInOrder(m, wl, rels, order[..|order| - 1], model))
  }

  lemma AssignInOrderStep(m: Meta, wl: seq<string>, rels: map<string, Document>, order: seq<string>, k: string, model: Doc)
    ensures AssignInOrder(m, wl, rels, order + [k], model) == Visit(m, wl, rels, k, AssignInOrder(m, wl, rels, order, model))
  {
    assert (order + [k])[..|order|] == order;
  }

  /** Visiting every relationship once, in any order, applies the whole patch. */
  lemma AssignedAll(m: Meta, wl: seq<string>, rels: map<string, Document>, order: seq<string>, model: Doc)
    requires WellFormed(m)
    requires forall k :: k in order <==> k in rels
    ensures AssignInOrder(m, wl, rels, order, model) == ApplyPatch(model, RelPatch(m, wl, rels, rels.Keys))
  {
    AssignInOrderIsPatch(m, wl, rels, order, model);
    assert (set k | k in order) == rels.Keys;
  }

  /** The model after relationship `k` is visited: stored when written, left alone otherwise. */
  function Visit(m: Meta, wl: seq<string>, rels: map<string, Document>, k: string, d: Doc): Doc {
    if k in rels && RelWritten(m, wl, k) && RelValue(RelationshipNamed(m, k).value, rels[k]).Ok? then
      Set(d, RelationshipNamed(m, k).value.bson, RelValue(RelationshipNamed(m, k).value, rels[k]).value)
    else d
  }

  /** The order in which relationships are visited does not matter: any
      order stores the same patch. */
  lemma {:induction false} AssignInOrderIsPatch(m: Meta, wl: seq<string>, rels: map<string, Document>, order: seq<string>, model: Doc)
    requires WellFormed(m)
    ensures AssignInOrder(m, wl, rels, order, model) == ApplyPatch(model, RelPatch(m, wl, rels, set k | k in order))
    decreases |order|
  {
    if order == [] {
      assert RelPatch(m, wl, rels, {}) == map[];
      assert model.fields + map[] == model.fields;
    } else {
      var init, k := order[..|order| - 1], order[|order| - 1];
      AssignInOrderIsPatch(m, wl, rels, init, model);
      var done := set j | j in init;
      assert (set j | j in order) == done + {k} by {
        assert order == init + [k];
      }
      if k in rels && RelWritten(m, wl, k) && RelValue(RelationshipNamed(m, k).value, rels[k]).Ok? {
        var f := RelationshipNamed(m, k).value;
        RelationshipOwner(m, k);
        RelPatchAdd(m, wl, rels, done, k, f);
        PatchSet(model, RelPatch(m, wl, rels, done), f.bson, RelValue(f, rels[k]).value);
      } else {
        if RelationshipNamed(m, k).Some? {
          RelationshipOwner(m, k);
        }
        RelPatchSkip(m, wl, rels, done, k);
      }
    }
  }

  /** One turn of the relationship loop (controller.go:1455-1477). */
  method VisitRelationship(m: Meta, wl: seq<string>, tolerate: bool, rels: map<string, Document>, name: string, doc: Doc) returns (r: Result<Doc, Abort>)
    requires name in rels
    ensures r.Err? <==> RelError(m, wl, tolerate, name, rels[name]).Some?
    ensures r.Err? ==> RelError(m, wl, tolerate, name, rels[name]) == Some(r.error)
    ensures r.Ok? ==> r.value == Visit(m, wl, rels, name, doc)
  {
    var field := RelationshipNamed(m, name);
    if field.None? {
      return Err(BadRequest("invalid relationship"));
    }
    var f := field.value;
    if name !in wl || !f.card.Stored() {
      if !tolerate {
        return Err(BadRequest("relationship is not writable"));
      }
      return Ok(doc);
    }
    r := AssignRelationship(f, rels[name], doc);
  }

  /** The relationship loop of controller.go:1454-1477. */
  method AssignRelationships(m: Meta, wl: seq<string>, tolerate: bool, rels: map<string, Document>, model: Doc) returns (r: Result<Doc, Abort>)
    requires WellFormed(m)
    ensures r.Ok? <==> forall k :: k in rels ==> RelError(m, wl, tolerate, k, rels[k]).None?
    ensures r.Err? ==> exists k :: k in rels && RelError(m, wl, tolerate, k, rels[k]) == Some(r.error)
    ensures r.Ok? ==> r.value == ApplyPatch(model, RelPatch(m, wl, rels, rels.Keys))
  {
    var doc := model;
    var done: set<string> := {};
    ghost var order: seq<string> := [];
    while done < rels.Keys
      invariant done <= rels.Keys
      invariant forall k :: k in done ==> RelError(m, wl, tolerate, k, rels[k]).None?
      invariant forall k :: k in order <==> k in done
      invariant doc == AssignInOrder(m, wl, rels, order, model)
      decreases rels.Keys - done
    {
      var name :| name in rels.Keys && name !in done;
      var next := VisitRelationship(m, wl, tolerate, rels, name, doc);
      if next.Err? {
        assert name in rels && RelError(m, wl, tolerate, name, rels[name]) == Some(next.error);
        return Err(next.error);
      }
      AssignInOrderStep(m, wl, rels, order, name, model);
      doc := next.value;
      done := done + {name};
      order := order + [name];
    }
    AssignedAll(m, wl, rels, order, model);
    return Ok(doc);
  }

  // ---- properties ----------------------------------------------------------

  /** An attribute the model does not have is always rejected, whether or
      not violations are tolerated. */
  lemma UnknownAttributeRejected(m: Meta, wl: seq<string>, tolerate: bool, name: string)
    requires AttributeNamed(m, name).None?
    ensures AttrError(m, wl, tolerate, name) == Some(BadRequest("invalid attribute"))
  {
  }

  /** A known attribute that is not writable is dropped exactly when
      violations are tolerated, and rejected otherwise. */
  lemma NonWritableAttribute(m: Meta, wl: seq<string>, tolerate: bool, name: string)
    requires AttributeNamed(m, name).Some? && name !in wl
    ensures AttrError(m, wl, tolerate, name).None? <==> tolerate
    ensures !AttrWritten(m, wl, name)
  {
  }

  /** A known relationship that is not writable, or a has-one or has-many
      one, is dropped exactly when violations are tolerated. */
  lemma NonWritableRelationship(m: Meta, wl: seq<string>, tolerate: bool, name: string, doc: Document)
    requires RelationshipNamed(m, name).Some?
    requires name !in wl || RelationshipNamed(m, name).value.card.Virtual()
    ensures RelError(m, wl, tolerate, name, doc).None? <==> tolerate
    ensures !RelWritten(m, wl, name)
  {
  }

  /** After assignment every written attribute holds the submitted value,
      and every attribute that was not written is as it was. */
  lemma AssignedAttribute(m: Meta, wl: seq<string>, res: Resource, f: Field, model: Doc)
    requires WellFormed(m) && f in m.fields && f.IsAttribute()
    ensures AttrWritten(m, wl, f.jsonKey) && f.jsonKey in res.attributes ==>
      Get(Assigned(m, wl, res, model), f.bson) == res.attributes[f.jsonKey]
    ensures !(AttrWritten(m, wl, f.jsonKey) && f.jsonKey in res.attributes) ==>
      Get(Assigned(m, wl, res, model), f.bson) == Get(model, f.bson)
  {
    FieldStoredAtUnique(m, f);
    AttributeNamedUnique(m, f);
    assert f.bson !in RelPatch(m, wl, res.relationships, res.relationships.Keys);
  }

  /** After assignment every written relationship holds the submitted
      identifiers, and every relationship that was not written is as it was. */
  lemma AssignedRelationship(m: Meta, wl: seq<string>, res: Resource, f: Field, model: Doc)
    requires WellFormed(m) && f in m.fields && f.IsRelationship()
    ensures RelWritten(m, wl, f.relName) && f.relName in res.relationships && RelValue(f, res.relationships[f.relName]).Ok? ==>
      Get(Assigned(m, wl, res, model), f.bson) == RelValue(f, res.relationships[f.relName]).value
    ensures !(RelWritten(m, wl, f.relName) && f.relName in res.relationships) ==>
      Get(Assigned(m, wl, res, model), f.bson) == Get(model, f.bson)
  {
    FieldStoredAtUnique(m, f);
    RelationshipNamedUnique(m, f);
    assert f.bson !in AttrPatch(m, Accepted(m, wl, res.attributes), Accepted(m, wl, res.attributes).Keys);
  }

  /** Fields that no attribute or relationship is stored in are never touched. */
  lemma AssignedOtherFields(m: Meta, wl: seq<string>, res: Resource, b: string, model: Doc)
    requires b !in StorageKeys(m)
    ensures Get(Assigned(m, wl, res, model), b) == Get(model, b)
    ensures Assigned(m, wl, res, model).id == model.id && Assigned(m, wl, res, model).lock == model.lock
  {
  }

  /** Assigning the same resource twice gives the same model as assigning it once. */
  lemma AssignIdempotent(m: Meta, wl: seq<string>, res: Resource, model: Doc)
    ensures Assigned(m, wl, res, Assigned(m, wl, res, model)) == Assigned(m, wl, res, model)
  {
    var accepted := Accepted(m, wl, res.attributes);
    PatchTwice(model, AttrPatch(m, accepted, accepted.Keys), RelPatch(m, wl, res.relationships, res.relationships.Keys));
  }

  lemma PatchTwice(d: Doc, a: Patch, p: Patch)
    ensures ApplyPatch(ApplyPatch(ApplyPatch(ApplyPatch(d, a), p), a), p) == ApplyPatch(ApplyPatch(d, a), p)
  {
    var x := d.fields + a + p;
    assert x + a + p == x;
  }
}
