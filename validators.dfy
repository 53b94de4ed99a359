/** The stock callbacks of callbacks.go: a credentials authorizer and the
    validators that compare a model with its original or count documents
    in other collections. A Go map handed to a validator is taken as the
    sequence of its pairs in the order the map yields them. Fields are
    addressed by their storage names. */
module Validators {
  import opened Wrappers
  import opened ObjectIds
  import opened Documents
  import opened JsonApi
  import opened Callbacks
  import opened ModelMeta

  /** The collections by model plural name, and the storage name of the
      soft-delete timestamp of the models that have one. */
  datatype Db = Db(collections: map<string, Collection>, softDelete: map<string, string>)

  /** The number of documents of a collection matching `q`. */
  function Count(db: Db, coll: string, q: Query): (n: nat)
    ensures coll in db.collections ==> n == |Filter(db.collections[coll], q)|
    ensures coll !in db.collections ==> n == 0
  {
    if coll in db.collections then |Filter(db.collections[coll], q)| else 0
  }

  /** The condition that leaves out soft-deleted documents, for models that
      have a soft-delete field. */
  function NotDeleted(db: Db, coll: string): (q: Query)
    ensures coll in db.softDelete ==> q == [FieldIs(db.softDelete[coll], Null)]
    ensures coll !in db.softDelete ==> q == []
  {
    if coll in db.softDelete then [FieldIs(db.softDelete[coll], Null)] else []
  }

  /** A validator that passes leaves the context as it was. */
  function Pass(v: View): Result<Effect, Failure> {
    Ok(Effect([], v.model))
  }

  /** Runs a check: no failure passes. */
  function Checked(v: View, f: Option<Failure>): (r: Result<Effect, Failure>)
    ensures f.None? ==> r == Pass(v)
    ensures f.Some? ==> r == Err(f.value)
  {
    if f.None? then Pass(v) else Err(f.value)
  }

  /** Reading a field of a missing model panics. */
  const NoModel := Unsafe("model is not set")
  const NoOriginal := Unsafe("original is not set")
  const AccessDeniedMsg := "access denied"
  /** The access-denied error any callback may return (callbacks.go:16-17). */
  const AccessDenied := Status(401, AccessDeniedMsg)

  /** The matcher that accepts Create and Update. */
  predicate CreateOrUpdate(v: View) {
    v.op == Create || v.op == Update
  }

  // Credentials -------------------------------------------------------------

  /** The credentials check (callbacks.go:20-35): the basic credentials of
      the HTTP request are a parameter. A denial is the access-denied error,
      which carries its own status 401 and so aborts with 401 from any step. */
  function BasicAuth(credentials: map<string, string>, basic: Option<(string, string)>): (f: Option<Failure>)
    ensures f.None? <==> basic.Some? && basic.value.0 in credentials && credentials[basic.value.0] == basic.value.1
    ensures f.Some? ==> f.value == AccessDenied
  {
    if basic.None? then Some(AccessDenied)
    else if basic.value.0 !in credentials || credentials[basic.value.0] != basic.value.1 then Some(AccessDenied)
    else None
  }

  function BasicAuthorizer(credentials: map<string, string>, basic: Option<(string, string)>): (cb: Callback)
    ensures forall v: View :: cb.matcher(v)
    ensures forall v: View :: cb.handler(v) == Checked(v, BasicAuth(credentials, basic))
  {
    Callback((v: View) => true, (v: View) => Checked(v, BasicAuth(credentials, basic)))
  }

  // Protected fields --------------------------------------------------------

  function ProtectedMsg(field: string): Failure {
    Safe("field " + field + " is protected")
  }

  /** The first field in `pairs` that has a default and differs from it; a
      missing default is the NoDefault marker. */
  function FirstChangedDefault(pairs: seq<(string, Option<Value>)>, d: Doc): (r: Option<nat>)
    ensures r.None? <==> forall i :: 0 <= i < |pairs| ==> pairs[i].1.None? || Get(d, pairs[i].0) == pairs[i].1.value
    ensures r.Some? ==> r.value < |pairs| && pairs[r.value].1.Some? && Get(d, pairs[r.value].0) != pairs[r.value].1.value
    ensures r.Some? ==> forall i :: 0 <= i < r.value ==> pairs[i].1.None? || Get(d, pairs[i].0) == pairs[i].1.value
    decreases |pairs|
  {
    if pairs == [] then None
    else if pairs[0].1.Some? && Get(d, pairs[0].0) != pairs[0].1.value then Some(0)
    else match FirstChangedDefault(pairs[1..], d) {
      case None => None
      case Some(i) => Some(i + 1)
    }
  }

  /** The first field in `pairs` whose value differs between `d` and `o`. */
  function FirstChanged(pairs: seq<(string, Option<Value>)>, d: Doc, o: Doc): (r: Option<nat>)
    ensures r.None? <==> forall i :: 0 <= i < |pairs| ==> Get(d, pairs[i].0) == Get(o, pairs[i].0)
    ensures r.Some? ==> r.value < |pairs| && Get(d, pairs[r.value].0) != Get(o, pairs[r.value].0)
    ensures r.Some? ==> forall i :: 0 <= i < r.value ==> Get(d, pairs[i].0) == Get(o, pairs[i].0)
    decreases |pairs|
  {
    if pairs == [] then None
    else if Get(d, pairs[0].0) != Get(o, pairs[0].0) then Some(0)
    else match FirstChanged(pairs[1..], d, o) {
      case None => None
      case Some(i) => Some(i + 1)
    }
  }

  /** callbacks.go:116-147: on Create a field may only hold its default, on
      Update it may not change. */
  function Protected(pairs: seq<(string, Option<Value>)>, v: View): (f: Option<Failure>)
    ensures v.op == Create && v.model.Some? ==>
      (f.None? <==> forall i :: 0 <= i < |pairs| ==> pairs[i].1.None? || Get(v.model.value, pairs[i].0) == pairs[i].1.value)
    ensures v.op == Update && v.model.Some? && v.original.Some? ==>
      (f.None? <==> forall i :: 0 <= i < |pairs| ==> Get(v.model.value, pairs[i].0) == Get(v.original.value, pairs[i].0))
    ensures f.Some? && f.value.Safe? ==> exists i :: 0 <= i < |pairs| && f.value == ProtectedMsg(pairs[i].0)
    ensures v.op != Create && v.op != Update ==> f.None?
  {
    if v.op == Create then
      if v.model.None? then (if pairs == [] then None else Some(NoModel))
      else match FirstChangedDefault(pairs, v.model.value) {
        case None => None
        case Some(i) => Some(ProtectedMsg(pairs[i].0))
      }
    else if v.op == Update then
      if pairs == [] then None
      else if v.model.None? then Some(NoModel)
      else if v.original.None? then Some(NoOriginal)
      else match FirstChanged(pairs, v.model.value, v.original.value) {
        case None => None
        case Some(i) => Some(ProtectedMsg(pairs[i].0))
      }
    else None
  }

  function ProtectedFieldsValidator(pairs: seq<(string, Option<Value>)>): (cb: Callback)
    ensures forall v: View :: cb.matcher(v) == CreateOrUpdate(v)
    ensures forall v: View :: cb.handler(v) == Checked(v, Protected(pairs, v))
  {
    Callback((v: View) => CreateOrUpdate(v), (v: View) => Checked(v, Protected(pairs, v)))
  }

  // Dependent resources -----------------------------------------------------

  const DependentMsg := "resource has dependent resources"

  /** The documents of `coll` that reference `id` in `field` and are not
      soft-deleted. */
  function ReferrerQuery(db: Db, coll: string, field: string, id: Id): Query {
    [FieldIs(field, Ref(id))] + NotDeleted(db, coll)
  }

  /** callbacks.go:162-189: a deletion fails when any listed collection
      holds a live document referencing the model. */
  function Dependent(pairs: map<string, string>, db: Db, v: View): (f: Option<Failure>)
    ensures v.model.Some? ==>
      (f.None? <==> forall coll :: coll in pairs ==> Count(db, coll, ReferrerQuery(db, coll, pairs[coll], v.model.value.id)) == 0)
    ensures v.model.Some? && f.Some? ==> f.value == Safe(DependentMsg)
  {
    if pairs == map[] then None
    else if v.model.None? then Some(NoModel)
    else if exists coll :: coll in pairs && Count(db, coll, ReferrerQuery(db, coll, pairs[coll], v.model.value.id)) != 0 then
      Some(Safe(DependentMsg))
    else None
  }

  function DependentResourcesValidator(pairs: map<string, string>, db: Db): (cb: Callback)
    ensures forall v: View :: cb.matcher(v) == (v.op == Delete)
    ensures forall v: View :: cb.handler(v) == Checked(v, Dependent(pairs, db, v))
  {
    Callback((v: View) => v.op == Delete, (v: View) => Checked(v, Dependent(pairs, db, v)))
  }

  /** A live referencing document blocks the deletion. */
  lemma ReferrerBlocksDelete(pairs: map<string, string>, db: Db, v: View, coll: string, d: Doc)
    requires v.model.Some? && coll in pairs && coll in db.collections
    requires d in db.collections[coll] && Matches(d, ReferrerQuery(db, coll, pairs[coll], v.model.value.id))
    ensures Dependent(pairs, db, v) == Some(Safe(DependentMsg))
  {
    FilterHolds(db.collections[coll], ReferrerQuery(db, coll, pairs[coll], v.model.value.id), d);
  }

  /** A matching document of a collection survives the filter. */
  lemma {:induction false} FilterHolds(c: Collection, q: Query, d: Doc)
    requires d in c && Matches(d, q)
    ensures |Filter(c, q)| > 0
  {
    assert d in Filter(c, q);
  }

  // Referenced resources ----------------------------------------------------

  /** Whether the reference in `field` resolves in `coll`: an unset
      optional or a nil list is skipped, a list needs every id counted, a
      single reference needs one document (the count is capped at one). */
  predicate Resolves(db: Db, v: Doc, field: string, coll: string) {
    match Get(v, field)
    case Null => true
    case Refs(ids) => Count(db, coll, [IdIn(ids)]) == |ids|
    case Ref(id) => Count(db, coll, [IdIs(id)]) >= 1
    case _ => false
  }

  function MissingRefMsg(field: string, many: bool): Failure {
    if many then Safe("missing references for field " + field) else Safe("missing reference for field " + field)
  }

  /** callbacks.go:203-258: the first field whose reference does not
      resolve fails the validation. */
  function Referenced(pairs: seq<(string, string)>, db: Db, d: Doc): (f: Option<Failure>)
    ensures f.None? <==> forall i :: 0 <= i < |pairs| ==> Resolves(db, d, pairs[i].0, pairs[i].1)
    ensures f.Some? ==> exists i :: (0 <= i < |pairs| && !Resolves(db, d, pairs[i].0, pairs[i].1)
      && f.value == MissingRefMsg(pairs[i].0, Get(d, pairs[i].0).Refs?))
    decreases |pairs|
  {
    if pairs == [] then None
    else if !Resolves(db, d, pairs[0].0, pairs[0].1) then Some(MissingRefMsg(pairs[0].0, Get(d, pairs[0].0).Refs?))
    else
      var rest := Referenced(pairs[1..], db, d);
      assert rest.Some? ==> exists i :: (1 <= i < |pairs| && !Resolves(db, d, pairs[i].0, pairs[i].1)
        && rest.value == MissingRefMsg(pairs[i].0, Get(d, pairs[i].0).Refs?)) by {
        if rest.Some? {
          var j :| 0 <= j < |pairs[1..]| && !Resolves(db, d, pairs[1..][j].0, pairs[1..][j].1)
            && rest.value == MissingRefMsg(pairs[1..][j].0, Get(d, pairs[1..][j].0).Refs?);
          assert pairs[1..][j] == pairs[j + 1];
        }
      }
      rest
  }

  function ReferencedResourcesValidator(pairs: seq<(string, string)>, db: Db): (cb: Callback)
    ensures forall v: View :: cb.matcher(v) == CreateOrUpdate(v)
    ensures forall v: View :: v.model.Some? ==> cb.handler(v) == Checked(v, Referenced(pairs, db, v.model.value))
  {
    Callback((v: View) => CreateOrUpdate(v),
             (v: View) => if v.model.None? then (if pairs == [] then Pass(v) else Err(NoModel))
                          else Checked(v, Referenced(pairs, db, v.model.value)))
  }

  // Matching references -----------------------------------------------------

  /** The ids without repeats, each at its first occurrence. */
  function Unique(ids: seq<Id>): (r: seq<Id>)
    ensures |r| <= |ids|
    decreases |ids|
  {
    if ids == [] then []
    else
      var prefix := Unique(ids[..|ids| - 1]);
      if ids[|ids| - 1] in ids[..|ids| - 1] then prefix else prefix + [ids[|ids| - 1]]
  }

  /** Unique keeps every id and repeats none. */
  lemma {:induction false} UniqueSet(ids: seq<Id>)
    ensures forall x :: x in Unique(ids) <==> x in ids
    ensures forall i, j :: 0 <= i < j < |Unique(ids)| ==> Unique(ids)[i] != Unique(ids)[j]
    decreases |ids|
  {
    if ids != [] {
      var init := ids[..|ids| - 1];
      UniqueSet(init);
      assert ids == init + [ids[|ids| - 1]];
    }
  }

  /** Unique shortens a list exactly when it has a repeat. */
  lemma {:induction false} UniqueLength(ids: seq<Id>)
    ensures |Unique(ids)| == |ids| <==> forall i, j :: 0 <= i < j < |ids| ==> ids[i] != ids[j]
    decreases |ids|
  {
    if ids != [] {
      var init := ids[..|ids| - 1];
      UniqueLength(init);
      UniqueSet(init);
      assert forall i :: 0 <= i < |init| ==> init[i] == ids[i];
      if ids[|ids| - 1] in init {
        var k :| 0 <= k < |init| && init[k] == ids[|ids| - 1];
        assert ids[k] == ids[|ids| - 1];
      }
    }
  }

  /** The ids to match, or none when the reference is unset or empty. */
  function MatchIds(ref: Value): (r: Option<seq<Id>>)
    ensures ref.Ref? ==> r == Some([ref.id])
    ensures ref.Null? || (ref.Refs? && ref.ids == []) ==> r.None?
    ensures ref.Refs? && ref.ids != [] ==> r == Some(ref.ids)
  {
    match ref
    case Ref(id) => Some([id])
    case Null => None
    case Refs(ids) => if ids == [] then None else Some(ids)
    case _ => Some([])
  }

  /** The target documents among `ids` that share the matched fields. */
  function MatchQuery(d: Doc, ids: seq<Id>, matcher: seq<(string, string)>): (q: Query)
    ensures |q| == |matcher| + 1 && q[0] == IdIn(ids)
    ensures forall i :: 0 <= i < |matcher| ==> q[i + 1] == FieldIs(matcher[i].1, Get(d, matcher[i].0))
    decreases |matcher|
  {
    if matcher == [] then [IdIn(ids)]
    else
      var rest := MatchQuery(d, ids, matcher[1..]);
      [IdIn(ids), FieldIs(matcher[0].1, Get(d, matcher[0].0))] + rest[1..]
  }

  const MismatchMsg := "references do not match"

  /** callbacks.go:351-414: every distinct referenced target must share the
      matched fields with the model. */
  function Matching(reference: string, target: string, matcher: seq<(string, string)>, db: Db, d: Doc): (f: Option<Failure>)
    ensures MatchIds(Get(d, reference)).None? ==> f.None?
    ensures MatchIds(Get(d, reference)).Some? ==>
      var ids := Unique(MatchIds(Get(d, reference)).value);
      (f.None? <==> Count(db, target, MatchQuery(d, ids, matcher)) == |ids|)
    ensures f.Some? ==> f.value == Safe(MismatchMsg)
  {
    match MatchIds(Get(d, reference))
    case None => None
    case Some(list) =>
      var ids := Unique(list);
      if Count(db, target, MatchQuery(d, ids, matcher)) != |ids| then Some(Safe(MismatchMsg)) else None
  }

  function MatchingReferencesValidator(reference: string, target: string, matcher: seq<(string, string)>, db: Db): (cb: Callback)
    ensures forall v: View :: cb.matcher(v) == CreateOrUpdate(v)
    ensures forall v: View :: v.model.Some? ==> cb.handler(v) == Checked(v, Matching(reference, target, matcher, db, v.model.value))
  {
    Callback((v: View) => CreateOrUpdate(v),
             (v: View) => if v.model.None? then Err(NoModel)
                          else Checked(v, Matching(reference, target, matcher, db, v.model.value)))
  }

  // Unique field ------------------------------------------------------------

  /** The live documents holding the model's value and the model's values
      of the filter fields. */
  function UniqueQuery(db: Db, coll: string, d: Doc, field: string, filters: seq<string>): (q: Query)
    ensures |q| > 0 && q[0] == FieldIs(field, Get(d, field))
    ensures forall i :: 0 <= i < |filters| ==> FieldIs(filters[i], Get(d, filters[i])) in q
    ensures forall c :: c in NotDeleted(db, coll) ==> c in q
  {
    [FieldIs(field, Get(d, field))] + FilterConds(d, filters) + NotDeleted(db, coll)
  }

  function FilterConds(d: Doc, filters: seq<string>): (q: Query)
    ensures |q| == |filters|
    ensures forall i :: 0 <= i < |filters| ==> q[i] == FieldIs(filters[i], Get(d, filters[i]))
  {
    seq(|filters|, i requires 0 <= i < |filters| => FieldIs(filters[i], Get(d, filters[i])))
  }

  /** The check is skipped: an update that keeps the value, or a value equal
      to the given zero (none for the NoZero marker). */
  predicate UniqueSkipped(v: View, field: string, zero: Option<Value>)
    requires v.model.Some?
  {
    (v.op == Update && v.original.Some? && Get(v.model.value, field) == Get(v.original.value, field))
    || (zero.Some? && Get(v.model.value, field) == zero.value)
  }

  function NotUniqueMsg(field: string): Failure {
    Safe("attribute " + field + " is not unique")
  }

  /** callbacks.go:430-470: unless skipped, the value must not be held by
      another live document with the same filter values. */
  function UniqueField(coll: string, field: string, zero: Option<Value>, filters: seq<string>, db: Db, v: View): (f: Option<Failure>)
    requires v.model.Some? && (v.op == Update ==> v.original.Some?)
    ensures UniqueSkipped(v, field, zero) ==> f.None?
    ensures !UniqueSkipped(v, field, zero) ==>
      (f.None? <==> Count(db, coll, UniqueQuery(db, coll, v.model.value, field, filters)) == 0)
    ensures f.Some? ==> f.value == NotUniqueMsg(field)
  {
    if UniqueSkipped(v, field, zero) then None
    else if Count(db, coll, UniqueQuery(db, coll, v.model.value, field, filters)) != 0 then Some(NotUniqueMsg(field))
    else None
  }

  function UniqueFieldValidator(coll: string, field: string, zero: Option<Value>, filters: seq<string>, db: Db): (cb: Callback)
    ensures forall v: View :: cb.matcher(v) == CreateOrUpdate(v)
    ensures forall v: View :: v.model.Some? && (v.op == Update ==> v.original.Some?) ==>
      cb.handler(v) == Checked(v, UniqueField(coll, field, zero, filters, db, v))
  {
    Callback((v: View) => CreateOrUpdate(v),
             (v: View) => if v.model.None? then Err(NoModel)
                          else if v.op == Update && v.original.None? then Err(NoOriginal)
                          else Checked(v, UniqueField(coll, field, zero, filters, db, v)))
  }

  /** A live document of the collection with the same value and filter
      values makes the validation fail. */
  lemma DuplicateFails(coll: string, field: string, zero: Option<Value>, filters: seq<string>, db: Db, v: View, other: Doc)
    requires v.model.Some? && (v.op == Update ==> v.original.Some?) && !UniqueSkipped(v, field, zero)
    requires coll in db.collections && other in db.collections[coll]
    requires Matches(other, UniqueQuery(db, coll, v.model.value, field, filters))
    ensures UniqueField(coll, field, zero, filters, db, v) == Some(NotUniqueMsg(field))
  {
    FilterHolds(db.collections[coll], UniqueQuery(db, coll, v.model.value, field, filters), other);
  }

  // Relationships -----------------------------------------------------------

  /** What RelationshipValidator hands to its two validators: the storage
      field referencing the model in each collection that depends on it,
      and the collection each stored reference points into. */
  datatype Pairs = Pairs(dependent: map<string, string>, references: seq<(string, string)>)

  function MissingModelMsg(relType: string): string {
    "fire: missing model in catalog: \"" + relType + "\""
  }

  function MissingInverseMsg(inverse: string): string {
    "fire: missing field for inverse relationship: \"" + inverse + "\""
  }

  /** The storage name of the last relationship among `fs` named `inverse`,
      or "" when there is none. */
  function InverseIn(fs: seq<Field>, inverse: string): (b: string)
    ensures b != "" ==> exists f :: f in fs && f.IsRelationship() && f.relName == inverse && f.bson == b
    ensures (forall f :: f in fs && f.IsRelationship() && f.relName == inverse ==> f.bson == "") ==> b == ""
    decreases |fs|
  {
    if fs == [] then ""
    else
      var last := fs[|fs| - 1];
      if last.IsRelationship() && last.relName == inverse then last.bson
      else InverseIn(fs[..|fs| - 1], inverse)
  }

  /** One relationship of the model added to the pairs
      (callbacks.go:269-309); a panic is an error. */
  function AddRelationship(f: Field, catalog: map<string, Meta>, excluded: seq<string>, acc: Pairs): (r: Result<Pairs, string>)
  {
    if !f.IsRelationship() || f.name in excluded then Ok(acc)
    else if (f.card.Virtual() || f.card.Stored()) && f.relType !in catalog then Err(MissingModelMsg(f.relType))
    else if f.card.Virtual() && InverseIn(catalog[f.relType].fields, f.relInverse) == "" then Err(MissingInverseMsg(f.relInverse))
    else if f.card.Virtual() then Ok(acc.(dependent := acc.dependent[f.relType := InverseIn(catalog[f.relType].fields, f.relInverse)]))
    else if f.card.Stored() then Ok(acc.(references := acc.references + [(f.bson, f.relType)]))
    else Ok(acc)
  }

  /** The relationships of `fields` added in order; the first panic ends it. */
  function Collect(fields: seq<Field>, catalog: map<string, Meta>, excluded: seq<string>, acc: Pairs): Result<Pairs, string>
    decreases |fields|
  {
    if fields == [] then Ok(acc)
    else match AddRelationship(fields[0], catalog, excluded, acc) {
      case Err(e) => Err(e)
      case Ok(next) => Collect(fields[1..], catalog, excluded, next)
    }
  }

  /** A relationship field the validator cannot be built for: its related
      model is not in the catalog, or it is virtual and the related model
      has no relationship named as its inverse. */
  predicate Unbuildable(f: Field, catalog: map<string, Meta>, excluded: seq<string>) {
    && f.IsRelationship() && f.name !in excluded && (f.card.Virtual() || f.card.Stored())
    && (f.relType !in catalog || (f.card.Virtual() && InverseIn(catalog[f.relType].fields, f.relInverse) == ""))
  }

  /** Building fails exactly when some relationship is unbuildable. */
  lemma {:induction false} CollectFails(fields: seq<Field>, catalog: map<string, Meta>, excluded: seq<string>, acc: Pairs)
    ensures Collect(fields, catalog, excluded, acc).Err? <==> exists i :: 0 <= i < |fields| && Unbuildable(fields[i], catalog, excluded)
    decreases |fields|
  {
    if fields != [] {
      var f := fields[0];
      if !Unbuildable(f, catalog, excluded) {
        assert AddRelationship(f, catalog, excluded, acc).Ok?;
        CollectFails(fields[1..], catalog, excluded, AddRelationship(f, catalog, excluded, acc).value);
        if exists i :: 0 <= i < |fields| && Unbuildable(fields[i], catalog, excluded) {
          var i :| 0 <= i < |fields| && Unbuildable(fields[i], catalog, excluded);
          assert fields[1..][i - 1] == fields[i];
        }
        forall i | 0 <= i < |fields[1..]| && Unbuildable(fields[1..][i], catalog, excluded)
          ensures exists k :: 0 <= k < |fields| && Unbuildable(fields[k], catalog, excluded)
        {
          assert fields[1..][i] == fields[i + 1];
        }
      } else {
        assert Unbuildable(fields[0], catalog, excluded);
      }
    }
  }

  /** Every stored relationship that is not excluded is checked for its
      references, into the collection of its related model. */
  lemma {:induction false} CollectReferences(fields: seq<Field>, catalog: map<string, Meta>, excluded: seq<string>, acc: Pairs)
    requires Collect(fields, catalog, excluded, acc).Ok?
    ensures acc.references <= Collect(fields, catalog, excluded, acc).value.references
    ensures forall f :: f in fields && f.IsRelationship() && f.card.Stored() && f.name !in excluded ==>
      (f.bson, f.relType) in Collect(fields, catalog, excluded, acc).value.references
    decreases |fields|
  {
    if fields != [] {
      var next := AddRelationship(fields[0], catalog, excluded, acc).value;
      CollectReferences(fields[1..], catalog, excluded, next);
      var all := Collect(fields, catalog, excluded, acc).value;
      assert acc.references <= next.references;
      assert next.references <= all.references;
      var f0 := fields[0];
      if f0.IsRelationship() && f0.card.Stored() && f0.name !in excluded {
        assert next.references[|next.references| - 1] == (f0.bson, f0.relType);
        assert all.references[|next.references| - 1] == (f0.bson, f0.relType);
      }
      assert forall f :: f in fields ==> f == fields[0] || f in fields[1..];
    }
  }

  /** A has-one or has-many relationship the validator is built for. */
  predicate Depends(f: Field, excluded: seq<string>) {
    f.IsRelationship() && f.name !in excluded && f.card.Virtual()
  }

  /** What the dependent map holds once built: a key for exactly the related
      models of the has-one and has-many relationships, each mapped to the
      storage field of the inverse relationship of one of those pointing at
      that model. When several point at the same model with different
      inverses, which one is kept is not stated here. */
  lemma {:induction false} CollectDependent(fields: seq<Field>, catalog: map<string, Meta>, excluded: seq<string>, acc: Pairs)
    requires Collect(fields, catalog, excluded, acc).Ok?
    ensures var all := Collect(fields, catalog, excluded, acc).value;
      forall t :: t in all.dependent <==>
        (t in acc.dependent || exists f :: f in fields && Depends(f, excluded) && f.relType == t)
    ensures var all := Collect(fields, catalog, excluded, acc).value;
      forall t :: t in all.dependent ==>
        (t in acc.dependent && all.dependent[t] == acc.dependent[t])
        || (t in catalog && exists f :: (f in fields && Depends(f, excluded) && f.relType == t
              && all.dependent[t] == InverseIn(catalog[t].fields, f.relInverse) != ""))
    decreases |fields|
  {
    if fields != [] {
      var f0 := fields[0];
      var next := AddRelationship(f0, catalog, excluded, acc).value;
      CollectDependent(fields[1..], catalog, excluded, next);
      var all := Collect(fields, catalog, excluded, acc).value;
      assert all == Collect(fields[1..], catalog, excluded, next).value;
      assert forall f :: f in fields <==> f == f0 || f in fields[1..];
      forall t | t in all.dependent
        ensures (t in acc.dependent && all.dependent[t] == acc.dependent[t])
          || (t in catalog && exists f :: (f in fields && Depends(f, excluded) && f.relType == t
                && all.dependent[t] == InverseIn(catalog[t].fields, f.relInverse) != ""))
      {
        if t in next.dependent && all.dependent[t] == next.dependent[t] {
          if Depends(f0, excluded) && f0.relType == t {
            assert f0 in fields;
          }
        } else {
          var f :| f in fields[1..] && Depends(f, excluded) && f.relType == t && t in catalog
            && all.dependent[t] == InverseIn(catalog[t].fields, f.relInverse) != "";
          assert f in fields;
        }
      }
    }
  }

  /** Builds the pairs with a loop over the model's fields
      (callbacks.go:263-309). */
  method BuildPairs(m: Meta, catalog: map<string, Meta>, excluded: seq<string>) returns (r: Result<Pairs, string>)
    ensures r == Collect(m.fields, catalog, excluded, Pairs(map[], []))
  {
    var acc := Pairs(map[], []);
    var i := 0;
    while i < |m.fields|
      invariant 0 <= i <= |m.fields|
      invariant Collect(m.fields, catalog, excluded, Pairs(map[], [])) == Collect(m.fields[i..], catalog, excluded, acc)
    {
      var f := m.fields[i];
      assert m.fields[i..][0] == f && m.fields[i..][1..] == m.fields[i + 1..];
      if f.IsRelationship() && f.name !in excluded {
        if f.card.Virtual() {
          if f.relType !in catalog {
            return Err(MissingModelMsg(f.relType));
          }
          var related := catalog[f.relType].fields;
          var bson := "";
          var j := 0;
          while j < |related|
            invariant 0 <= j <= |related|
            invariant bson == InverseIn(related[..j], f.relInverse)
          {
            assert related[..j + 1][..j] == related[..j];
            if related[j].IsRelationship() && related[j].relName == f.relInverse {
              bson := related[j].bson;
            }
            j := j + 1;
          }
          assert related[..j] == related;
          if bson == "" {
            return Err(MissingInverseMsg(f.relInverse));
          }
          acc := acc.(dependent := acc.dependent[f.relType := bson]);
        }
        if f.card.Stored() {
          if f.relType !in catalog {
            return Err(MissingModelMsg(f.relType));
          }
          acc := acc.(references := acc.references + [(f.bson, f.relType)]);
        }
      }
      i := i + 1;
    }
    assert m.fields[i..] == [];
    r := Ok(acc);
  }

  /** callbacks.go:311-336: the dependent check runs before the reference
      check, each only when its own matcher accepts, and the first failure
      ends the run. */
  function RelationshipValidator(p: Pairs, db: Db): (cb: Callback)
    ensures forall v: View :: cb.matcher(v) == (v.op == Delete || CreateOrUpdate(v))
    ensures forall v: View :: v.op == Delete ==> cb.handler(v) == DependentResourcesValidator(p.dependent, db).handler(v)
    ensures forall v: View :: CreateOrUpdate(v) ==> cb.handler(v) == ReferencedResourcesValidator(p.references, db).handler(v)
  {
    var dep := DependentResourcesValidator(p.dependent, db);
    var refs := ReferencedResourcesValidator(p.references, db);
    Callback((v: View) => dep.matcher(v) || refs.matcher(v),
             (v: View) =>
               if dep.matcher(v) && dep.handler(v).Err? then dep.handler(v)
               else if refs.matcher(v) then refs.handler(v)
               else Pass(v))
  }
}
