/** The rules the controller applies while handling a request that do not
    depend on mutable state: its configuration, the operation an intent
    runs as, the checks of `prepare`, the storage keys of the flagged
    fields, the selectors of a related listing and the rewriting of its
    links (controller.go). */
module Handling {
  import opened Wrappers
  import opened ObjectIds
  import opened Documents
  import opened ModelMeta
  import opened JsonApi
  import opened Callbacks
  import opened CoalManager
  import Tokens
  import Fields
  import Render
  import ListQuery

  /** A custom action: the HTTP methods it accepts and its handler. */
  datatype Action = Action(methods: seq<string>, handler: View -> Result<Effect, Failure>)

  /** What an application sets on a controller. The three flagged fields
      are the Go names of the fields that carry the "fire-soft-delete",
      "fire-idempotent-create" and "fire-consistent-update" flags, if any. */
  datatype Config = Config(
    meta: Meta,
    filters: seq<string>,
    sorters: seq<string>,
    authorizers: seq<Callback>,
    validators: seq<Callback>,
    decorators: seq<Callback>,
    notifiers: seq<Callback>,
    listLimit: int,
    collectionActions: map<string, Action>,
    resourceActions: map<string, Action>,
    tolerateViolations: bool,
    idempotentCreate: bool,
    consistentUpdate: bool,
    softDelete: bool,
    softDeleteField: Option<string>,
    idempotentField: Option<string>,
    consistentField: Option<string>)

  /** The clock and the id generator: the time a soft delete records, the
      id of a created model and the next consistent-update token. */
  datatype Env = Env(now: Time, newId: Id, newToken: Id)

  const InvalidResourceId := BadRequest("invalid resource id")
  const InvalidObjectId := Internal("invalid object id")
  const Unsupported := Abort(405, "unsupported operation")
  const NotFound := Abort(404, "resource not found")
  const MissingDocument := BadRequest("missing document")
  const ResourceTypeMismatch := BadRequest("resource type mismatch")
  const UnnecessaryId := BadRequest("unnecessary resource id")
  const ResourceIdMismatch := BadRequest("resource id mismatch")
  const InvalidRelationship := BadRequest("invalid relationship")
  const NotReadable := BadRequest("relationship is not readable")
  const NotWritable := BadRequest("relationship is not writable")
  const PartialUpdate := Abort(405, "partial updates not allowed with consistent updates")
  const MissingCollectionAction := Internal("missing collection action callback")
  const MissingResourceAction := Internal("missing resource action callback")
  const ToOneOverflow := Internal("to one relationship returned more than one result")
  /** The context lost its model to a callback; the source dereferences nil here. */
  const NoModel := Internal("context has no model")
  /** A relationship document without data; the source dereferences nil here. */
  const MissingData := Internal("relationship document has no data")

  /** The statuses with which the callback steps abort on a safe error. */
  const AuthorizerStatus := 401
  const ValidatorStatus := 400
  const DecoratorStatus := 500
  const NotifierStatus := 500
  const ActionStatus := 400

  function MissingRelated(relType: string): Abort {
    Internal("missing related controller for " + relType)
  }

  /** A has-one or has-many whose inverse the related model does not
      declare; the source dereferences nil here. */
  function MissingInverse(inverse: string): Abort {
    Internal("no relationship matching the inverse name " + inverse)
  }

  /** The single resource of a request document, if it carries one. */
  function BodyResource(body: Option<Document>): (r: Option<Resource>)
    ensures r.Some? <==> body.Some? && body.value.data.Some? && body.value.data.value.One? && body.value.data.value.one.Some?
  {
    if body.Some? && body.value.data.Some? && body.value.data.value.One? then body.value.data.value.one else None
  }

  /** The document a relationship request submits; none reads as empty. */
  function BodyDocument(body: Option<Document>): Document {
    if body.Some? then body.value else Document(None, NoLinks)
  }

  /** The token a flagged string field holds, or "" when the mechanism is off. */
  function TokenOf(d: Doc, key: Option<string>): (t: string)
    ensures key.Some? ==> t == Tokens.Token(d, key.value)
    ensures key.None? ==> t == ""
  {
    if key.Some? then Tokens.Token(d, key.value) else ""
  }

  /** The model with the token of a flagged field set to `t`, or as it is
      when the mechanism is off: Create gives a model its first update token
      and Update empties it before it assigns the submitted attributes
      (controller.go:479-483 and 573-579). */
  function Tokened(d: Doc, key: Option<string>, t: string): (r: Doc)
    ensures r.id == d.id
    ensures key.Some? ==> TokenOf(r, key) == t
    ensures key.None? ==> r == d
    ensures forall k :: (key.None? || k != key.value) ==> Get(r, k) == Get(d, k)
  {
    if key.Some? then Tokens.WithToken(d, key.value, t) else d
  }

  /** The resource a create or an update submits, checked against the
      request (controller.go:451-464 and 548-561): it must be there, be of
      the requested type, and carry no id on create and the requested id on
      update. */
  function CheckedResource(body: Option<Document>, r: Request, create: bool): (res: Outcome<Resource>)
    ensures res.Ok? <==> && BodyResource(body).Some?
                         && BodyResource(body).value.rtype == r.resourceType
                         && BodyResource(body).value.id == (if create then "" else r.resourceId)
    ensures res.Ok? ==> res.value == BodyResource(body).value
    ensures BodyResource(body).None? ==> res == Err(MissingDocument)
    ensures BodyResource(body).Some? && BodyResource(body).value.rtype != r.resourceType ==> res == Err(ResourceTypeMismatch)
    ensures res.Err? ==> res.error in {MissingDocument, ResourceTypeMismatch, if create then UnnecessaryId else ResourceIdMismatch}
  {
    match BodyResource(body)
    case None => Err(MissingDocument)
    case Some(res) =>
      if res.rtype != r.resourceType then Err(ResourceTypeMismatch)
      else if create && res.id != "" then Err(UnnecessaryId)
      else if !create && res.id != r.resourceId then Err(ResourceIdMismatch)
      else Ok(res)
  }

  // ---- dispatch -------------------------------------------------------------

  /** The operation an intent runs as (controller.go:277-297). */
  function OperationOf(i: Intent): (op: Operation)
    ensures op.Action() <==> i.CollectionAction? || i.ResourceAction?
    ensures op.Write() <==> i in {CreateResource, UpdateResource, DeleteResource,
                                  SetRelationship, AppendToRelationship, RemoveFromRelationship}
    ensures op == Update <==> i in {UpdateResource, SetRelationship, AppendToRelationship, RemoveFromRelationship}
    ensures op == Find <==> i in {FindResource, GetRelatedResources, GetRelationship}
  {
    match i
    case ListResources => List
    case FindResource => Find
    case CreateResource => Create
    case UpdateResource => Update
    case DeleteResource => Delete
    case GetRelatedResources => Find
    case GetRelationship => Find
    case SetRelationship => Update
    case AppendToRelationship => Update
    case RemoveFromRelationship => Update
    case CollectionAction => CollectionActionOp
    case ResourceAction => ResourceActionOp
  }

  /** A resource id that is present must be an object id. */
  predicate IdRejected(r: Request) {
    r.resourceId != "" && !IsHex(r.resourceId)
  }

  /** The status a successful operation responds with, where it sets one. */
  function SuccessCode(i: Intent): (code: int)
    requires !OperationOf(i).Action()
    ensures code == 201 <==> i.CreateResource?
    ensures code == 204 <==> i.DeleteResource?
    ensures code in {200, 201, 204}
  {
    match i
    case CreateResource => 201
    case DeleteResource => 204
    case _ => 200
  }

  /** The fields the request may read: all of them, or the requested
      sparse fieldset when there is one (controller.go:1198-1238). */
  ghost predicate ReadableFor(m: Meta, r: Request, names: seq<string>) {
    var keys := Fields.Requested(Some(r.fields), m.plural);
    && (keys == [] ==> names == Fields.AllNames(m))
    && (keys != [] ==> Fields.FirstUnknown(m, keys).None?)
    && (keys != [] ==> forall n :: n in names <==> n in Fields.AllNames(m) && exists k :: k in keys && Fields.KeyToName(m, k) == Some(n))
  }

  // ---- prepare --------------------------------------------------------------

  /** A collection action must not be empty or look like a resource id. */
  predicate BadCollectionAction(name: string) {
    name == "" || IsHex(name)
  }

  /** A resource action must not be empty, "relationships" or a relationship name. */
  predicate BadResourceAction(m: Meta, name: string) {
    name == "" || name == "relationships" || RelationshipNamed(m, name).Some?
  }

  function InvalidCollectionAction(name: string): string {
    "fire: invalid collection action \"" + name + "\""
  }

  function InvalidResourceAction(name: string): string {
    "fire: invalid resource action \"" + name + "\""
  }

  function ActionMethods(actions: map<string, Action>): (r: map<string, seq<string>>)
    ensures r.Keys == actions.Keys
    ensures forall n :: n in r ==> r[n] == actions[n].methods
  {
    map n | n in actions :: actions[n].methods
  }

  /** The field carrying a flag, when one is named and exists. */
  function FlaggedField(m: Meta, name: Option<string>): (r: Option<Field>)
    ensures r.Some? ==> name.Some? && r.value.name == name.value && r.value in m.fields
  {
    if name.Some? then FieldNamed(m, name.value) else None
  }

  function MissingFlag(flag: string): string {
    "coal: no field flagged \"" + flag + "\""
  }

  function WrongFlagType(what: string, name: string, model: string, typ: string): string {
    "fire: " + what + " field \"" + name + "\" for model \"" + model + "\" is not of type \"" + typ + "\""
  }

  /** The problem with one enabled flag: its field is missing or has the
      wrong type. */
  function FlagCheck(m: Meta, on: bool, name: Option<string>, flag: string, what: string, kind: Kind, typ: string): (r: Option<string>)
    ensures r.None? <==> !on || (FlaggedField(m, name).Some? && FlaggedField(m, name).value.kind == kind)
  {
    if !on then None
    else match FlaggedField(m, name)
      case None => Some(MissingFlag(flag))
      case Some(f) => if f.kind != kind then Some(WrongFlagType(what, f.name, m.name, typ)) else None
  }

  /** The first problem with the flagged fields, in the order they are
      checked (controller.go:218-240). */
  function FlagProblem(c: Config): Option<string> {
    var sd := FlagCheck(c.meta, c.softDelete, c.softDeleteField, "fire-soft-delete", "soft delete", TimePtrKind, "*time.Time");
    var ic := FlagCheck(c.meta, c.idempotentCreate, c.idempotentField, "fire-idempotent-create", "idempotent create", StringKind, "string");
    var cu := FlagCheck(c.meta, c.consistentUpdate, c.consistentField, "fire-consistent-update", "consistent update", StringKind, "string");
    if sd.Some? then sd else if ic.Some? then ic else cu
  }

  /** The storage key of a flagged field when its mechanism is on. */
  function FlagKey(m: Meta, on: bool, name: Option<string>): Option<string> {
    if on && FlaggedField(m, name).Some? then Some(FlaggedField(m, name).value.bson) else None
  }

  function SoftDeleteKey(c: Config): Option<string> { FlagKey(c.meta, c.softDelete, c.softDeleteField) }
  function IdempotentKey(c: Config): Option<string> { FlagKey(c.meta, c.idempotentCreate, c.idempotentField) }
  function ConsistentKey(c: Config): Option<string> { FlagKey(c.meta, c.consistentUpdate, c.consistentField) }

  /** Once the flags are checked, each mechanism is on exactly when it has
      a storage key, and that key belongs to a field of the right type. */
  lemma FlagKeys(c: Config)
    requires FlagProblem(c).None?
    ensures SoftDeleteKey(c).Some? <==> c.softDelete
    ensures IdempotentKey(c).Some? <==> c.idempotentCreate
    ensures ConsistentKey(c).Some? <==> c.consistentUpdate
    ensures c.softDelete ==> exists f :: f in c.meta.fields && f.kind == TimePtrKind && f.bson == SoftDeleteKey(c).value
    ensures c.idempotentCreate ==> exists f :: f in c.meta.fields && f.kind == StringKind && f.bson == IdempotentKey(c).value
    ensures c.consistentUpdate ==> exists f :: f in c.meta.fields && f.kind == StringKind && f.bson == ConsistentKey(c).value
  {
    var sd := FlagCheck(c.meta, c.softDelete, c.softDeleteField, "fire-soft-delete", "soft delete", TimePtrKind, "*time.Time");
    var ic := FlagCheck(c.meta, c.idempotentCreate, c.idempotentField, "fire-idempotent-create", "idempotent create", StringKind, "string");
    assert sd.None? && ic.None?;
    if c.softDelete { assert FlaggedField(c.meta, c.softDeleteField).value in c.meta.fields; }
    if c.idempotentCreate { assert FlaggedField(c.meta, c.idempotentField).value in c.meta.fields; }
    if c.consistentUpdate { assert FlaggedField(c.meta, c.consistentField).value in c.meta.fields; }
  }

  /** The condition that hides soft-deleted documents: the flagged field
      is null. */
  function SoftDeleteCond(c: Config): (q: Query)
    ensures SoftDeleteKey(c).None? ==> q == []
    ensures forall d :: Matches(d, q) <==> SoftDeleteKey(c).None? || Get(d, SoftDeleteKey(c).value) == Null
  {
    if SoftDeleteKey(c).Some? then
      var q := [FieldIs(SoftDeleteKey(c).value, Null)];
      assert forall d :: Matches(d, q) <==> CondMatches(d, q[0]);
      q
    else []
  }

  /** The document found for a selector that names an id and hides
      soft-deleted documents has that id and is not soft-deleted. */
  lemma LoadedMatches(c: Config, d: Doc, q: Query, id: Id, rest: Query)
    requires Matches(d, q + [IdIs(id)] + SoftDeleteCond(c) + rest)
    ensures d.id == id
    ensures SoftDeleteKey(c).Some? ==> Get(d, SoftDeleteKey(c).value) == Null
  {
    var all := q + [IdIs(id)] + SoftDeleteCond(c) + rest;
    assert all[|q|] == IdIs(id) && all[|q|] in all;
    assert CondMatches(d, all[|q|]);
    assert Matches(d, SoftDeleteCond(c)) by {
      forall cond | cond in SoftDeleteCond(c) ensures CondMatches(d, cond) {
        assert cond in all;
      }
    }
  }

  /** A document locked while it is read still matches the query it was
      found by; the lock counter takes no part in matching. */
  lemma LockKeepsMatch(d: Doc, q: Query, k: int)
    requires Matches(d, q)
    ensures Matches(d.(lock := k), q)
  {
    forall cond | cond in q ensures CondMatches(d.(lock := k), cond) {
      assert CondMatches(d, cond);
      assert forall f :: Get(d.(lock := k), f) == Get(d, f);
    }
  }

  /** The document a FindFirst hands back matches the query and is, with its
      lock counter raised when it was locked, the one left in the
      collection; the set of ids does not change. */
  lemma FoundDocument(c: Collection, inTx: bool, q: Query, lock: bool)
    requires FindFirstStep(c, inTx, q, 0, lock).result.Ok?
    requires FindFirstStep(c, inTx, q, 0, lock).result.value.Some?
    ensures var rep := FindFirstStep(c, inTx, q, 0, lock);
      var d := rep.result.value.value;
      && Matches(d, q) && d in rep.coll && Ids(rep.coll) == Ids(c) && |rep.coll| == |c|
      && (UniqueIds(c) ==> UniqueIds(rep.coll))
      && (!lock ==> d in c)
  {
    var i := NthMatch(c, q, 0).value;
    assert c[i] in Filter(c, q);
    if lock {
      LockKeepsMatch(c[i], q, c[i].lock + 1);
      assert c[i := Locked(c[i], 1)][i] == Locked(c[i], 1);
      ReplaceAtIds(c, i, Locked(c[i], 1));
      if UniqueIds(c) { ReplaceAtKeepsIds(c, i, Locked(c[i], 1)); }
    }
  }

  /** A soft delete stamps the document with the id, if there is one, and
      keeps every document in place. */
  lemma StampedDelete(c: Collection, inTx: bool, id: Id, key: string, t: Time)
    requires UniqueIds(c)
    ensures var rep := UpdateStep(c, inTx, id, map[key := Stamp(t)], false);
      && rep.result.Ok?
      && Ids(rep.coll) == Ids(c)
      && forall d :: d in rep.coll && d.id == id ==> Get(d, key) == Stamp(t)
  {
    var patch := map[key := Stamp(t)];
    var rep := UpdateStep(c, inTx, id, patch, false);
    if rep.result == Ok(true) {
      var i :| 0 <= i < |c| && c[i].id == id && rep.coll == c[i := Locked(ApplyPatch(c[i], patch), 0)];
      var e := Locked(ApplyPatch(c[i], patch), 0);
      ReplaceAtIds(c, i, e);
      forall d | d in rep.coll && d.id == id ensures Get(d, key) == Stamp(t) {
        var j :| 0 <= j < |rep.coll| && rep.coll[j] == d;
        if j != i {
          assert false;
        }
      }
    }
  }

  // ---- the related resources ------------------------------------------------

  /** The request a related listing runs: the same request as a List of
      the related type (controller.go:740-746). */
  function ChildRequest(r: Request, relType: string): (c: Request)
    ensures c.intent == ListResources && c.resourceType == relType
    ensures c.resourceId == "" && c.relatedResource == ""
    ensures c.prefix == r.prefix && c.fields == r.fields && c.filters == r.filters && c.sorting == r.sorting
    ensures c.pageNumber == r.pageNumber && c.pageSize == r.pageSize
  {
    r.(intent := ListResources, resourceType := relType, resourceId := "", relatedResource := "")
  }

  /** The ids a to-many field holds; an unset field holds none. */
  function StoredIds(d: Doc, key: string): seq<Id> {
    match Get(d, key)
    case Refs(ids) => ids
    case _ => []
  }

  /** The document a to-one field refers to; an unset optional field
      refers to a newly generated id that no document has, an unset
      required one to the zero id. */
  function ToOneTarget(f: Field, d: Doc, newId: Id): Id
    requires f.card.ToOne?
  {
    match Get(d, f.bson)
    case Ref(id) => id
    case _ => if f.card.optional then newId else Zero
  }

  /** The selector of a related listing (controller.go:748-843): the
      referenced documents for to-one and to-many, the documents whose
      inverse field refers to the model for has-one and has-many. */
  function RelatedSelector(f: Field, d: Doc, inverse: Field, newId: Id): (q: Query)
    requires !f.card.NoRel?
    ensures f.card.ToOne? ==> q == [IdIs(ToOneTarget(f, d, newId))]
    ensures f.card.ToMany? ==> q == [IdIn(StoredIds(d, f.bson))]
    ensures f.card.HasOne? ==> q == [FieldIs(inverse.bson, Ref(d.id))]
    ensures f.card.HasMany? ==> q == [FieldIn(inverse.bson, [Ref(d.id)])]
  {
    match f.card
    case ToOne(_) => [IdIs(ToOneTarget(f, d, newId))]
    case ToMany => [IdIn(StoredIds(d, f.bson))]
    case HasOne => [FieldIs(inverse.bson, Ref(d.id))]
    case HasMany => [FieldIn(inverse.bson, [Ref(d.id)])]
  }

  /** A has-many selector finds the documents whose inverse field holds the
      model, and a has-one selector those whose inverse field is it (or, for
      an array field, holds it). */
  lemma HasManySelects(f: Field, d: Doc, inverse: Field, newId: Id, x: Doc)
    requires f.card.HasMany?
    ensures Matches(x, RelatedSelector(f, d, inverse, newId)) <==> ValueMatches(Get(x, inverse.bson), Ref(d.id))
  {
    var q := RelatedSelector(f, d, inverse, newId);
    assert Matches(x, q) <==> CondMatches(x, q[0]);
  }

  /** A to-many selector finds exactly the referenced documents. */
  lemma ToManySelects(f: Field, d: Doc, inverse: Field, newId: Id, x: Doc)
    requires f.card.ToMany?
    ensures Matches(x, RelatedSelector(f, d, inverse, newId)) <==> x.id in StoredIds(d, f.bson)
  {
    var q := RelatedSelector(f, d, inverse, newId);
    assert Matches(x, q) <==> CondMatches(x, q[0]);
  }

  /** A listing of a to-one or has-one relationship collapses to one
      resource or none; more than one is an internal error. */
  function Collapse(data: Hybrid, overflow: Abort): (r: Result<Hybrid, Abort>)
    requires data.Many?
    ensures r.Err? <==> |data.many| > 1
    ensures r.Err? ==> r.error == overflow
    ensures r.Ok? ==> r.value.One? && (r.value.one.Some? <==> |data.many| == 1)
    ensures r.Ok? && r.value.one.Some? ==> r.value.one.value == data.many[0]
  {
    if |data.many| > 1 then Err(overflow)
    else if |data.many| == 1 then Ok(One(Some(data.many[0])))
    else Ok(One(None))
  }

  /** Every link of a related listing is rewritten from the listing's own
      path to the path of the related request (controller.go:853-860). */
  function RewriteLinks(l: Links, from: string, to: string): Links {
    Links(ReplaceFirst(l.self, from, to), ReplaceFirst(l.related, from, to),
          ReplaceFirst(l.first, from, to), ReplaceFirst(l.prev, from, to),
          ReplaceFirst(l.next, from, to), ReplaceFirst(l.last, from, to))
  }

  lemma ReplaceInPageLink(self: string, to: string, n: int, k: int)
    requires self != ""
    ensures ReplaceFirst(ListQuery.PageLink(self, n, k), self, to) == ListQuery.PageLink(to, n, k)
  {
    var a, b := ListQuery.Decimal(n), ListQuery.Decimal(k);
    var tail := "?page[number]=" + a + "&page[size]=" + b;
    calc {
      ListQuery.PageLink(self, n, k);
      self + "?page[number]=" + a + "&page[size]=" + b;
      { SeqAssoc4(self, "?page[number]=", a, "&page[size]=", b); }
      self + tail;
    }
    ReplaceFirstOfPrefix(self, to, tail);
    SeqAssoc4(to, "?page[number]=", a, "&page[size]=", b);
  }

  lemma SeqAssoc4(s: string, a: string, b: string, c: string, d: string)
    ensures s + a + b + c + d == s + (a + b + c + d)
  {
  }

  lemma ReplaceInEmpty(from: string, to: string)
    requires from != ""
    ensures ReplaceFirst("", from, to) == ""
  {
  }

  /** The pagination links of a related listing, rewritten, are the links
      the same listing would have at the related request's own path: the
      page parameters survive and only the path changes. */
  lemma RelatedLinks(r: Request, relType: string, p: ListQuery.Page, count: nat)
    ensures var from := Self(ChildRequest(r, relType));
      RewriteLinks(ListQuery.ListLinks(from, p, count), from, Self(r)) == ListQuery.ListLinks(Self(r), p, count)
  {
    var from := Self(ChildRequest(r, relType));
    var to := Self(r);
    ReplaceInEmpty(from, to);
    if p.number > 0 && p.size > 0 {
      var last := ListQuery.LastPage(count, p.size);
      ReplaceInPageLink(from, to, p.number, p.size);
      ReplaceInPageLink(from, to, 1, p.size);
      ReplaceInPageLink(from, to, last, p.size);
      if p.number > 1 { ReplaceInPageLink(from, to, p.number - 1, p.size); }
      if p.number < last { ReplaceInPageLink(from, to, p.number + 1, p.size); }
    } else {
      assert from + "" == from;
      ReplaceFirstOfPrefix(from, to, "");
      assert to + "" == to;
    }
  }

  // ---- rendering one model --------------------------------------------------

  /** The resource for one model with its relationships preloaded
      (controller.go:1680-1689 after preloadRelationships). */
  function ResourceFor(m: Meta, readable: seq<string>, prefix: string, related: map<string, Render.Related>, d: Doc): (r: Result<Resource, Abort>)
    ensures r.Ok? ==> r.value.rtype == m.plural && r.value.id == Hex(d.id)
    ensures r.Err? ==> r.error.status == 500
  {
    var pre :- Render.Preload(m, readable, related, [d]);
    Render.Construct(m, readable, prefix, d, Some(pre))
  }

  /** The document of one relationship of a resource; none when the
      resource does not render it. */
  function RelationshipDoc(res: Resource, rel: string): Option<Document> {
    if rel in res.relationships then Some(res.relationships[rel]) else None
  }

  /** A readable relationship's response is its data with its self and
      related links, under the resource's own path. */
  lemma RelationshipResponse(m: Meta, readable: seq<string>, prefix: string, related: map<string, Render.Related>, d: Doc, f: Field)
    requires WellFormed(m) && f in m.fields && f.IsRelationship() && f.name in readable
    requires ResourceFor(m, readable, prefix, related, d).Ok?
    ensures var pre := Render.Preload(m, readable, related, [d]).value;
      var base := Render.BaseLink(prefix, m.plural, d.id);
      && Render.RelData(f, d, Some(pre)).Ok?
      && RelationshipDoc(ResourceFor(m, readable, prefix, related, d).value, f.relName)
         == Some(Document(Some(Render.RelData(f, d, Some(pre)).value), Render.RelLinks(base, f.relName)))
  {
    var pre := Render.Preload(m, readable, related, [d]).value;
    Render.RenderedRelationship(m, readable, prefix, d, Some(pre), f);
  }

  // ---- to-many edits --------------------------------------------------------

  /** The model after a to-many edit: the field is written only when the
      list of ids changed (controller.go:1011-1021 and 1099-1112). */
  function Edited(d: Doc, key: string, ids: seq<Id>): (r: Doc)
    ensures StoredIds(r, key) == ids || (ids == StoredIds(d, key) && r == d)
    ensures r.id == d.id
  {
    if ids == StoredIds(d, key) then d else Set(d, key, Refs(ids))
  }
}
