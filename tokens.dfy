/** The store writes of Create and Update (controller.go:479-516 and
    566-631): the idempotent-create token that makes a repeated create a
    conflict, and the consistent-update token that turns a replace into a
    compare-and-swap. A token field holds a string; a field that was never
    written reads as the empty string, as a Go string field does. */
module Tokens {
  import opened Wrappers
  import opened ObjectIds
  import opened Documents
  import opened CoalManager

  const NotUnique := Abort(409, "document is not unique")
  const MissingCreateToken := BadRequest("missing idempotent create token")
  const ExistingCreateToken := Abort(409, "existing document with same idempotent create token")
  const ChangedCreateToken := BadRequest("idempotent create token cannot be changed")
  const InvalidUpdateToken := BadRequest("invalid consistent update token")
  const StaleUpdateToken := Abort(409, "existing document with different consistent update token")

  /** How a failed store call aborts the request: a violated unique index is
      a conflict, anything else an internal error. */
  function StoreAbort(e: StoreError): (a: Abort)
    ensures a.status == (if e.DuplicateKey? then 409 else 500)
  {
    match e
    case DuplicateKey => NotUnique
    case TransactionRequired => Internal("operation requires a transaction")
    case CannotLockWithSkipLimit => Internal("cannot lock with skip and limit")
    case ZeroId => Internal("model has a zero id")
    case ImmutableId => Internal("document id cannot be changed")
  }

  /** The string stored under `key`; anything else reads as "". */
  function Token(d: Doc, key: string): string {
    match Get(d, key)
    case Str(s) => s
    case _ => ""
  }

  function WithToken(d: Doc, key: string, t: string): (r: Doc)
    ensures r.id == d.id && Token(r, key) == t
    ensures forall k :: k != key ==> Get(r, k) == Get(d, k)
  {
    Set(d, key, Str(t))
  }

  /** A store write that went through: the collection after it and the
      model as written. */
  datatype Written = Written(coll: Collection, model: Doc)

  /** The query that finds a document created with token `t`. */
  function CreateQuery(key: string, t: string): Query {
    [FieldIs(key, Str(t))]
  }

  /** The insert of Create. `idemKey` is the storage key of the
      idempotent-create token when the mechanism is on. */
  function CreateStore(docs: Collection, inTx: bool, idemKey: Option<string>, model: Doc, newId: Id): (r: Result<Written, Abort>)
    ensures r.Err? ==> r.error.status in {400, 409, 500}
  {
    match idemKey
    case Some(key) =>
      var t := Token(model, key);
      if t == "" then Err(MissingCreateToken)
      else
        var reply := InsertIfMissingStep(docs, inTx, CreateQuery(key, t), model, newId);
        (match reply.result
         case Err(e) => Err(StoreAbort(e))
         case Ok((inserted, d)) =>
           if !inserted then Err(ExistingCreateToken) else Ok(Written(reply.coll, d)))
    case None =>
      var reply := InsertStep(docs, model, newId);
      (match reply.result
       case Err(e) => Err(StoreAbort(e))
       case Ok(d) => Ok(Written(reply.coll, d)))
  }

  /** With idempotent create on, a model without a token is refused before
      the store is asked. */
  lemma CreateNeedsToken(docs: Collection, inTx: bool, key: string, model: Doc, newId: Id)
    requires Token(model, key) == ""
    ensures CreateStore(docs, inTx, Some(key), model, newId) == Err(MissingCreateToken)
  {
  }

  /** A successful create appends exactly one document carrying the model's
      id (a fresh one when it had none) and, under idempotent create, its
      token. */
  lemma CreateAppends(docs: Collection, inTx: bool, idemKey: Option<string>, model: Doc, newId: Id)
    requires CreateStore(docs, inTx, idemKey, model, newId).Ok?
    ensures var w := CreateStore(docs, inTx, idemKey, model, newId).value;
      && |w.coll| == |docs| + 1 && w.coll[..|docs|] == docs
      && w.coll[|docs|].id == EnsureId(model, newId).id
      && w.coll[|docs|].id !in Ids(docs)
      && (idemKey.Some? ==> Token(w.coll[|docs|], idemKey.value) == Token(model, idemKey.value) != "")
  {
    var w := CreateStore(docs, inTx, idemKey, model, newId).value;
    if idemKey.Some? {
      var key := idemKey.value;
      var t := Token(model, key);
      var q := CreateQuery(key, t);
      var d2 := EnsureId(model, newId);
      assert w.coll == docs + [OnInsert(d2, q)];
      assert key in d2.fields;
      assert d2.id !in Ids(docs);
    }
  }

  /** Under idempotent create a second create with the same token is a
      conflict, whatever else the model holds, and nothing is written. */
  lemma CreateTwiceConflicts(docs: Collection, key: string, model: Doc, again: Doc, newId: Id, newId2: Id)
    requires CreateStore(docs, true, Some(key), model, newId).Ok?
    requires Token(again, key) == Token(model, key)
    ensures var w := CreateStore(docs, true, Some(key), model, newId).value;
      CreateStore(w.coll, true, Some(key), again, newId2) == Err(ExistingCreateToken)
  {
    var w := CreateStore(docs, true, Some(key), model, newId).value;
    CreateAppends(docs, true, Some(key), model, newId);
    var t := Token(model, key);
    var last := w.coll[|docs|];
    assert Matches(last, CreateQuery(key, t));
    assert last in Filter(w.coll, CreateQuery(key, t));
  }

  /** The consistent-update check and replace of Update. `conKey` is the
      storage key of the update token when the mechanism is on, `stored` the
      token the model held when it was loaded, `nextToken` the source of the
      next token. */
  function UpdateStore(docs: Collection, inTx: bool, conKey: Option<string>, model: Doc, stored: string, nextToken: Id): (r: Result<Written, Abort>)
    ensures r.Err? ==> r.error.status in {400, 409, 500}
  {
    match conKey
    case Some(key) =>
      var t := Token(model, key);
      if t != stored then Err(InvalidUpdateToken)
      else
        var next := WithToken(model, key, Hex(nextToken));
        var reply := ReplaceFirstStep(docs, inTx, [IdIs(model.id), FieldIs(key, Str(t))], next, false);
        (match reply.result
         case Err(e) => Err(StoreAbort(e))
         case Ok((updated, d)) =>
           if !updated then Err(StaleUpdateToken) else Ok(Written(reply.coll, d)))
    case None =>
      var reply := ReplaceStep(docs, inTx, model, false);
      (match reply.result
       case Err(e) => Err(StoreAbort(e))
       case Ok((_, d)) => Ok(Written(reply.coll, d)))
  }

  /** A submitted update token that differs from the loaded one is refused
      before the store is asked. */
  lemma UpdateChecksToken(docs: Collection, inTx: bool, key: string, model: Doc, stored: string, nextToken: Id)
    requires Token(model, key) != stored
    ensures UpdateStore(docs, inTx, Some(key), model, stored, nextToken) == Err(InvalidUpdateToken)
  {
  }

  /** A consistent update succeeds exactly when the stored document still
      holds the token that was submitted; it then writes the model with the
      fresh token in place of that document. */
  lemma UpdateCompareAndSwap(docs: Collection, key: string, model: Doc, nextToken: Id)
    requires UniqueIds(docs)
    requires !model.id.IsZero()
    ensures var t := Token(model, key);
      var r := UpdateStore(docs, true, Some(key), model, t, nextToken);
      var i := IndexOf(docs, model.id);
      && (r.Ok? <==> i.Some? && ValueMatches(Get(docs[i.value], key), Str(t)))
      && (r.Err? ==> r.error == StaleUpdateToken)
      && (r.Ok? ==> r.value.model == WithToken(model, key, Hex(nextToken)) &&
                    r.value.coll == docs[i.value := WithToken(model, key, Hex(nextToken))])
  {
    var t := Token(model, key);
    var q := [IdIs(model.id), FieldIs(key, Str(t))];
    var next := WithToken(model, key, Hex(nextToken));
    var i := IndexOf(docs, model.id);
    match FirstMatch(docs, q)
    case None =>
      NoFirstMatchEmptyFilter(docs, q);
      if i.Some? {
        assert !Matches(docs[i.value], q);
        assert CondMatches(docs[i.value], q[0]);
      }
    case Some(j) =>
      assert CondMatches(docs[j], q[0]) && CondMatches(docs[j], q[1]);
      IndexOfUnique(docs, j);
  }

  /** With unique ids the position of an id is the one document carrying it. */
  lemma IndexOfUnique(c: Collection, k: nat)
    requires UniqueIds(c) && k < |c|
    ensures IndexOf(c, c[k].id) == Some(k)
  {
  }

  /** Without consistent update the model simply replaces the document with
      its id, if there is one. */
  lemma PlainUpdateReplaces(docs: Collection, inTx: bool, model: Doc, stored: string, nextToken: Id)
    requires !model.id.IsZero()
    ensures var r := UpdateStore(docs, inTx, None, model, stored, nextToken);
      && r.Ok? && r.value.model == model
      && (model.id in Ids(docs) ==> r.value.coll == docs[IndexOf(docs, model.id).value := model])
      && (model.id !in Ids(docs) ==> r.value.coll == docs)
  {
  }

  /** Update replaces a document in place: no id appears or disappears. */
  lemma UpdateKeepsIds(docs: Collection, inTx: bool, conKey: Option<string>, model: Doc, stored: string, nextToken: Id)
    requires UpdateStore(docs, inTx, conKey, model, stored, nextToken).Ok?
    ensures Ids(UpdateStore(docs, inTx, conKey, model, stored, nextToken).value.coll) == Ids(docs)
  {
    if conKey.Some? {
      var key := conKey.value;
      var t := Token(model, key);
      var q := [IdIs(model.id), FieldIs(key, Str(t))];
      var next := WithToken(model, key, Hex(nextToken));
      var reply := ReplaceFirstStep(docs, inTx, q, next, false);
      var i :| 0 <= i < |docs| && Matches(docs[i], q) && reply.coll == docs[i := next];
      assert CondMatches(docs[i], q[0]);
      ReplaceAtIds(docs, i, next);
    }
  }
}
