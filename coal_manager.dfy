/** The storage manager of one collection (coal/manager.go): guarded reads and
    writes over the in-memory collection, with transactions reduced to a flag
    and pessimistic locks to the `_lk` counter of each document. */
module CoalManager {
  import opened Wrappers
  import opened ObjectIds
  import opened Documents

  datatype StoreError =
    | TransactionRequired     // ErrTransactionRequired
    | CannotLockWithSkipLimit // "cannot lock with skip and limit"
    | ZeroId                  // "model has a zero id"
    | DuplicateKey            // a unique index (here: `_id`) was violated
    | ImmutableId             // a replacement tried to change `_id`

  /** The collection after one call, and what the call returned. */
  datatype Reply<T> = Reply(coll: Collection, result: Result<T, StoreError>)

  // ---- helpers on collections -------------------------------------------

  function Locked(d: Doc, inc: int): Doc { d.(lock := d.lock + inc) }

  /** Applies `patch` and adds `inc` to the lock of every document matching `q`. */
  function PatchMatching(c: Collection, q: Query, patch: Patch, inc: int): (r: Collection)
    ensures |r| == |c|
    ensures forall i :: 0 <= i < |c| ==> r[i].id == c[i].id
    ensures forall i :: 0 <= i < |c| ==>
      r[i] == (if Matches(c[i], q) then Locked(ApplyPatch(c[i], patch), inc) else c[i])
  {
    if c == [] then []
    else [if Matches(c[0], q) then Locked(ApplyPatch(c[0], patch), inc) else c[0]]
         + PatchMatching(c[1..], q, patch, inc)
  }

  lemma PatchMatchingKeepsIds(c: Collection, q: Query, patch: Patch, inc: int)
    requires UniqueIds(c)
    ensures UniqueIds(PatchMatching(c, q, patch, inc))
  {
  }

  /** Documents not matching `q`, in order. */
  function Without(c: Collection, q: Query): (r: Collection)
    ensures forall d :: d in r <==> d in c && !Matches(d, q)
  {
    if c == [] then []
    else if Matches(c[0], q) then Without(c[1..], q)
    else [c[0]] + Without(c[1..], q)
  }

  lemma {:induction false} WithoutSplits(c: Collection, q: Query)
    ensures |Without(c, q)| + |Filter(c, q)| == |c|
  {
    if c != [] { WithoutSplits(c[1..], q); }
  }

  function RemoveAt(c: Collection, i: nat): (r: Collection)
    requires i < |c|
    ensures |r| == |c| - 1
  {
    c[..i] + c[i + 1..]
  }

  lemma RemoveAtKeepsIds(c: Collection, i: nat)
    requires i < |c| && UniqueIds(c)
    ensures UniqueIds(RemoveAt(c, i))
    ensures Ids(RemoveAt(c, i)) == Ids(c) - {c[i].id}
  {
    RemoveAtIndex(c, i);
    RemoveAtUnique(c, i);
    var r := RemoveAt(c, i);
    forall id | id in Ids(c) - {c[i].id} ensures id in Ids(r) {
      var k :| 0 <= k < |c| && c[k].id == id;
      if k < i { assert r[k] == c[k]; } else { assert r[k - 1] == c[k]; }
    }
  }

  lemma RemoveAtIndex(c: Collection, i: nat)
    requires i < |c|
    ensures forall k :: 0 <= k < |RemoveAt(c, i)| ==> RemoveAt(c, i)[k] == c[if k < i then k else k + 1]
  {
  }

  lemma RemoveAtUnique(c: Collection, i: nat)
    requires i < |c| && UniqueIds(c)
    ensures UniqueIds(RemoveAt(c, i))
  {
    RemoveAtIndex(c, i);
  }

  lemma ReplaceAtKeepsIds(c: Collection, i: nat, d: Doc)
    requires i < |c| && UniqueIds(c) && d.id == c[i].id
    ensures UniqueIds(c[i := d]) && Ids(c[i := d]) == Ids(c)
  {
    var r := c[i := d];
    forall id | id in Ids(c) ensures id in Ids(r) {
      var k :| 0 <= k < |c| && c[k].id == id;
      assert r[k].id == id;
    }
  }

  lemma AppendKeepsIds(c: Collection, d: Doc)
    requires UniqueIds(c) && d.id !in Ids(c)
    ensures UniqueIds(c + [d]) && Ids(c + [d]) == Ids(c) + {d.id}
  {
    var r := c + [d];
    forall id | id in Ids(c) + {d.id} ensures id in Ids(r) {
      if id != d.id {
        var k :| 0 <= k < |c| && c[k].id == id;
        assert r[k].id == id;
      } else {
        assert r[|c|] == d;
      }
    }
  }

  /** The position of the match after skipping `skip` earlier matches. */
  function NthMatch(c: Collection, q: Query, skip: nat): (r: Option<nat>)
    ensures r.Some? <==> skip < |Filter(c, q)|
    ensures r.Some? ==> r.value < |c| && c[r.value] == Filter(c, q)[skip]
  {
    if c == [] then None
    else if Matches(c[0], q) then
      if skip == 0 then Some(0)
      else match NthMatch(c[1..], q, skip - 1)
        case None => None
        case Some(k) => Some(k + 1)
    else match NthMatch(c[1..], q, skip)
      case None => None
      case Some(k) => Some(k + 1)
  }

  /** Upserts copy the query's equality conditions into the inserted document. */
  function MergeQuery(d: Doc, q: Query): Doc
    decreases q
  {
    if q == [] then d
    else
      var d2 := if q[0].FieldIs? then Set(d, q[0].field, q[0].v) else d;
      MergeQuery(d2, q[1..])
  }

  /** The document an upsert with `$setOnInsert: d` inserts: the query's
      equalities seed it and every field of the model is laid over them, so
      on a key both set the model's value is stored. */
  function OnInsert(d: Doc, q: Query): (r: Doc)
    ensures r.id == d.id && r.lock == d.lock
    ensures forall f :: f in d.fields ==> Get(r, f) == d.fields[f]
    ensures forall f :: f !in d.fields ==> Get(r, f) == Get(MergeQuery(Doc(d.id, d.lock, map[]), q), f)
  {
    MergeQueryKeepsIdentity(Doc(d.id, d.lock, map[]), q);
    ApplyPatch(MergeQuery(Doc(d.id, d.lock, map[]), q), d.fields)
  }

  /** Where the model does not set a field, the inserted document takes the
      value of the query's last equality on that field. */
  lemma {:induction false} MergeQueryEquality(d: Doc, q: Query, f: string, v: Value)
    requires FieldIs(f, v) in q
    requires forall c :: c in q && c.FieldIs? && c.field == f ==> c.v == v
    ensures Get(MergeQuery(d, q), f) == v
    decreases q
  {
    var d2 := if q[0].FieldIs? then Set(d, q[0].field, q[0].v) else d;
    if FieldIs(f, v) in q[1..] {
      MergeQueryEquality(d2, q[1..], f, v);
    } else {
      assert q[0] == FieldIs(f, v);
      MergeQueryUntouched(d2, q[1..], f);
    }
  }

  /** Fields no equality of the query names are left as they were. */
  lemma {:induction false} MergeQueryUntouched(d: Doc, q: Query, f: string)
    requires forall c :: c in q && c.FieldIs? ==> c.field != f
    ensures Get(MergeQuery(d, q), f) == Get(d, f)
    decreases q
  {
    if q != [] {
      var d2 := if q[0].FieldIs? then Set(d, q[0].field, q[0].v) else d;
      assert q[0] in q;
      MergeQueryUntouched(d2, q[1..], f);
    }
  }

  lemma {:induction false} MergeQueryKeepsIdentity(d: Doc, q: Query)
    ensures MergeQuery(d, q).id == d.id && MergeQuery(d, q).lock == d.lock
    decreases q
  {
    if q != [] {
      var d2 := if q[0].FieldIs? then Set(d, q[0].field, q[0].v) else d;
      MergeQueryKeepsIdentity(d2, q[1..]);
    }
  }

  function EnsureId(d: Doc, newId: Id): (r: Doc)
    ensures d.id.IsZero() ==> r == d.(id := newId)
    ensures !d.id.IsZero() ==> r == d
  {
    if d.id.IsZero() then d.(id := newId) else d
  }

  // ---- one transition function per manager operation ---------------------

  function FindStep(c: Collection, inTx: bool, id: Id, lock: bool): (r: Reply<Option<Doc>>)
    ensures lock && !inTx ==> r == Reply(c, Err(TransactionRequired))
    ensures !(lock && !inTx) ==> r.result.Ok?
    ensures r.result.Ok? ==> (r.result.value.Some? <==> id in Ids(c))
    ensures r.result.Ok? && r.result.value.Some? ==> r.result.value.value.id == id
    ensures r.result.Ok? && IndexOf(c, id).Some? ==>
      var i := IndexOf(c, id).value;
      && r.result.value == Some(if lock then Locked(c[i], 1) else c[i])
      && (lock ==> r.coll == c[i := Locked(c[i], 1)])
    ensures !lock ==> r.coll == c
  {
    if lock && !inTx then Reply(c, Err(TransactionRequired))
    else match IndexOf(c, id)
      case None => Reply(c, Ok(None))
      case Some(i) =>
        if lock then Reply(c[i := Locked(c[i], 1)], Ok(Some(Locked(c[i], 1))))
        else Reply(c, Ok(Some(c[i])))
  }

  /** FindFirst: the match after `skip` earlier ones, locked when asked. */
  function FindFirstStep(c: Collection, inTx: bool, q: Query, skip: nat, lock: bool): (r: Reply<Option<Doc>>)
    ensures lock && !inTx ==> r == Reply(c, Err(TransactionRequired))
    ensures !(lock && !inTx) ==> r.result.Ok?
    ensures r.result.Ok? ==> (r.result.value.Some? <==> |Filter(c, q)| > skip)
    ensures r.result.Ok? && r.result.value.Some? ==> Matches(r.result.value.value, q) || lock
    ensures r.result.Ok? && r.result.value.Some? ==>
      r.result.value.value == (if lock then Locked(Filter(c, q)[skip], 1) else Filter(c, q)[skip])
    ensures r.result.Ok? && r.result.value.Some? && lock ==>
      exists i :: 0 <= i < |c| && c[i] == Filter(c, q)[skip] && r.coll == c[i := Locked(c[i], 1)]
    ensures !lock || r.result.Err? || r.result.value.None? ==> r.coll == c
  {
    if lock && !inTx then Reply(c, Err(TransactionRequired))
    else match NthMatch(c, q, skip)
      case None => Reply(c, Ok(None))
      case Some(i) =>
        assert c[i] in Filter(c, q);
        if lock then Reply(c[i := Locked(c[i], 1)], Ok(Some(Locked(c[i], 1))))
        else Reply(c, Ok(Some(c[i])))
  }

  /** The document selection of FindFirst as the source writes it: the options
      carrying sort and skip are prepared but never handed to the driver, so the
      first match in natural order is returned whatever `skip` is. */
  function FindFirstAsWritten(c: Collection, q: Query, skip: nat): (r: Option<Doc>)
    ensures r.Some? <==> |Filter(c, q)| > 0
  {
    match FirstMatch(c, q)
    case None =>
      NoFirstMatchEmptyFilter(c, q);
      None
    case Some(i) =>
      FirstMatchInFilter(c, q);
      Some(c[i])
  }

  /** Two matching documents and skip 1: the code as written returns the first,
      although one match has been asked to be skipped. */
  lemma FindFirstIgnoresSkip(a: Doc, b: Doc)
    requires a.id != b.id
    ensures FindFirstAsWritten([a, b], [], 1) == Some(a)
    ensures FindFirstStep([a, b], false, [], 1, false).result == Ok(Some(b))
  {
    var c := [a, b];
    assert Matches(a, []) && Matches(b, []);
    assert FirstMatch(c, []) == Some(0);
    assert NthMatch(c[1..], [], 0) == Some(0);
    assert NthMatch(c, [], 1) == Some(1);
  }

  function FindAllStep(c: Collection, inTx: bool, q: Query, skip: int, limit: int, lock: bool): (r: Reply<seq<Doc>>)
    ensures !inTx ==> r == Reply(c, Err(TransactionRequired))
    ensures inTx && lock && (skip > 0 || limit > 0) ==> r == Reply(c, Err(CannotLockWithSkipLimit))
    ensures inTx && !(lock && (skip > 0 || limit > 0)) ==> r.result.Ok?
    ensures r.result.Ok? && !lock ==> r.coll == c && r.result.value == Window(Filter(c, q), skip, limit)
    ensures r.result.Ok? && lock ==> r.coll == PatchMatching(c, q, map[], 1) && |r.result.value| == |Filter(c, q)|
    ensures r.result.Ok? && lock ==>
      forall k :: 0 <= k < |r.result.value| ==> r.result.value[k] == Locked(Filter(c, q)[k], 1)
  {
    if !inTx then Reply(c, Err(TransactionRequired))
    else if lock && (skip > 0 || limit > 0) then Reply(c, Err(CannotLockWithSkipLimit))
    else
      var c2 := if lock then PatchMatching(c, q, map[], 1) else c;
      PatchedFilter(c, q);
      Reply(c2, Ok(Window(Filter(c2, q), skip, limit)))
  }

  /** Adding to the lock counter does not change which documents match: the
      matches after a locking pass are the former matches, each locked. */
  lemma {:induction false} PatchedFilter(c: Collection, q: Query)
    ensures |Filter(PatchMatching(c, q, map[], 1), q)| == |Filter(c, q)|
    ensures forall k :: 0 <= k < |Filter(c, q)| ==>
      Filter(PatchMatching(c, q, map[], 1), q)[k] == Locked(Filter(c, q)[k], 1)
  {
    if c != [] {
      PatchedFilter(c[1..], q);
      var p := PatchMatching(c, q, map[], 1);
      assert p[1..] == PatchMatching(c[1..], q, map[], 1);
      if Matches(c[0], q) {
        assert ApplyPatch(c[0], map[]) == c[0];
        assert p[0] == Locked(c[0], 1);
        assert forall f :: Get(p[0], f) == Get(c[0], f);
        assert Matches(p[0], q) by {
          forall cond | cond in q ensures CondMatches(p[0], cond) {
            assert CondMatches(c[0], cond);
          }
        }
        assert Filter(p, q) == [p[0]] + Filter(p[1..], q);
        assert Filter(c, q) == [c[0]] + Filter(c[1..], q);
      } else {
        assert p[0] == c[0];
      }
    }
  }

  /** A locking Find stores the document it returns: reading the id again
      without a lock gives that same document, and the ids are unchanged. */
  lemma LockedFindIsStored(c: Collection, inTx: bool, id: Id)
    requires UniqueIds(c)
    requires FindStep(c, inTx, id, true).result.Ok? && FindStep(c, inTx, id, true).result.value.Some?
    ensures var r := FindStep(c, inTx, id, true);
      && UniqueIds(r.coll) && Ids(r.coll) == Ids(c)
      && FindStep(r.coll, inTx, id, false) == Reply(r.coll, r.result)
  {
    var i := IndexOf(c, id).value;
    var c2 := c[i := Locked(c[i], 1)];
    assert forall k :: 0 <= k < |c| ==> c2[k].id == c[k].id;
    IndexOfSameIds(c, c2, id);
    forall x | x in Ids(c) ensures x in Ids(c2) {
      var k :| 0 <= k < |c| && c[k].id == x;
      assert c2[k] in c2;
    }
    forall x | x in Ids(c2) ensures x in Ids(c) {
      var k :| 0 <= k < |c2| && c2[k].id == x;
      assert c[k] in c;
    }
  }

  /** Looking an id up depends only on the ids, position by position. */
  lemma {:induction false} IndexOfSameIds(c: Collection, c2: Collection, id: Id)
    requires |c| == |c2| && forall k :: 0 <= k < |c| ==> c2[k].id == c[k].id
    ensures IndexOf(c2, id) == IndexOf(c, id)
    decreases |c|
  {
    if c != [] {
      IndexOfSameIds(c[1..], c2[1..], id);
    }
  }

  /** A locking FindAll returns exactly what an unlocked read of the new
      store selects. */
  lemma LockedFindAllIsStored(c: Collection, q: Query)
    ensures var r := FindAllStep(c, true, q, 0, 0, true);
      FindAllStep(r.coll, true, q, 0, 0, false) == Reply(r.coll, r.result)
  {
  }

  /** FindEach yields the same documents as FindAll, one at a time. */
  function FindEachStep(c: Collection, inTx: bool, q: Query, skip: int, limit: int, lock: bool): (r: Reply<seq<Doc>>)
    ensures r == FindAllStep(c, inTx, q, skip, limit, lock)
  {
    FindAllStep(c, inTx, q, skip, limit, lock)
  }

  function CountStep(c: Collection, inTx: bool, q: Query, skip: int, limit: int, lock: bool): (r: Reply<nat>)
    ensures !inTx ==> r == Reply(c, Err(TransactionRequired))
    ensures inTx && lock && (skip > 0 || limit > 0) ==> r == Reply(c, Err(CannotLockWithSkipLimit))
    ensures inTx && lock && skip <= 0 && limit <= 0 ==>
      r == Reply(PatchMatching(c, q, map[], 1), Ok(|Filter(c, q)|))
    ensures inTx && !lock ==> r == Reply(c, Ok(|Window(Filter(c, q), skip, limit)|))
  {
    if !inTx then Reply(c, Err(TransactionRequired))
    else if lock && (skip > 0 || limit > 0) then Reply(c, Err(CannotLockWithSkipLimit))
    else if lock then Reply(PatchMatching(c, q, map[], 1), Ok(|Filter(c, q)|))
    else Reply(c, Ok(|Window(Filter(c, q), skip, limit)|))
  }

  function InsertStep(c: Collection, d: Doc, newId: Id): (r: Reply<Doc>)
    ensures r.result.Ok? <==> EnsureId(d, newId).id !in Ids(c)
    ensures r.result.Ok? ==> r.coll == c + [EnsureId(d, newId)] && r.result.value == EnsureId(d, newId)
    ensures r.result.Err? ==> r == Reply(c, Err(DuplicateKey))
  {
    var d2 := EnsureId(d, newId);
    if d2.id in Ids(c) then Reply(c, Err(DuplicateKey)) else Reply(c + [d2], Ok(d2))
  }

  /** InsertIfMissing: the boolean is true exactly when nothing matched and the
      document was added (the query's equalities overlaid by the model's
      fields); otherwise the collection is left as it was. */
  function InsertIfMissingStep(c: Collection, inTx: bool, q: Query, d: Doc, newId: Id): (r: Reply<(bool, Doc)>)
    ensures !inTx ==> r == Reply(c, Err(TransactionRequired))
    ensures inTx && |Filter(c, q)| > 0 ==> r == Reply(c, Ok((false, EnsureId(d, newId))))
    ensures inTx && |Filter(c, q)| == 0 && EnsureId(d, newId).id in Ids(c) ==> r == Reply(c, Err(DuplicateKey))
    ensures r.result.Ok? && r.result.value.0 ==>
      |Filter(c, q)| == 0 && r.coll == c + [OnInsert(EnsureId(d, newId), q)]
    ensures r.result.Ok? ==> r.result.value.1 == EnsureId(d, newId)
    ensures r.result.Ok? && !r.result.value.0 ==> r.coll == c
  {
    if !inTx then Reply(c, Err(TransactionRequired))
    else
      var d2 := EnsureId(d, newId);
      if FirstMatch(c, q).Some? then
        FirstMatchInFilter(c, q);
        Reply(c, Ok((false, d2)))
      else if d2.id in Ids(c) then
        NoFirstMatchEmptyFilter(c, q);
        Reply(c, Err(DuplicateKey))
      else
        NoFirstMatchEmptyFilter(c, q);
        Reply(c + [OnInsert(d2, q)], Ok((true, d2)))
  }

  /** What an inserting InsertIfMissing stores: every field the model sets
      keeps the model's value, even where the query names another one; a
      field only the query names takes the query's value. */
  lemma InsertIfMissingStores(c: Collection, q: Query, d: Doc, newId: Id, f: string, v: Value)
    requires InsertIfMissingStep(c, true, q, d, newId).result.Ok?
    requires InsertIfMissingStep(c, true, q, d, newId).result.value.0
    ensures var r := InsertIfMissingStep(c, true, q, d, newId);
      var stored := r.coll[|c|];
      && |r.coll| == |c| + 1
      && stored.id == EnsureId(d, newId).id
      && (f in d.fields ==> Get(stored, f) == d.fields[f])
      && (f !in d.fields && FieldIs(f, v) in q && (forall k :: k in q && k.FieldIs? && k.field == f ==> k.v == v)
          ==> Get(stored, f) == v)
  {
    var d2 := EnsureId(d, newId);
    var seed := Doc(d2.id, d2.lock, map[]);
    assert d2.fields == d.fields;
    if f !in d.fields && FieldIs(f, v) in q && (forall k :: k in q && k.FieldIs? && k.field == f ==> k.v == v) {
      MergeQueryEquality(seed, q, f, v);
    }
  }

  lemma FirstMatchInFilter(c: Collection, q: Query)
    requires FirstMatch(c, q).Some?
    ensures |Filter(c, q)| > 0
  {
    var i := FirstMatch(c, q).value;
    assert c[i] in Filter(c, q);
  }

  lemma {:induction false} NoFirstMatchEmptyFilter(c: Collection, q: Query)
    requires FirstMatch(c, q).None?
    ensures |Filter(c, q)| == 0
  {
    if c != [] {
      assert !Matches(c[0], q);
      NoFirstMatchEmptyFilter(c[1..], q);
    }
  }

  function ReplaceStep(c: Collection, inTx: bool, d: Doc, lock: bool): (r: Reply<(bool, Doc)>)
    ensures d.id.IsZero() ==> r == Reply(c, Err(ZeroId))
    ensures !d.id.IsZero() && lock && !inTx ==> r == Reply(c, Err(TransactionRequired))
    ensures r.result.Ok? ==> r.result.value.1 == (if lock then Locked(d, 1000) else d)
    ensures r.result.Ok? ==> (r.result.value.0 <==> d.id in Ids(c))
    ensures r.result.Ok? && !r.result.value.0 ==> r.coll == c
    ensures r.result.Ok? ==> Ids(r.coll) == Ids(c)
  {
    if d.id.IsZero() then Reply(c, Err(ZeroId))
    else if lock && !inTx then Reply(c, Err(TransactionRequired))
    else
      var d2 := if lock then Locked(d, 1000) else d;
      match IndexOf(c, d2.id)
      case None => Reply(c, Ok((false, d2)))
      case Some(i) =>
        ReplaceAtIds(c, i, d2);
        Reply(c[i := d2], Ok((true, d2)))
  }

  lemma ReplaceAtIds(c: Collection, i: nat, d: Doc)
    requires i < |c| && d.id == c[i].id
    ensures Ids(c[i := d]) == Ids(c)
  {
    var r := c[i := d];
    forall id | id in Ids(c) ensures id in Ids(r) {
      var k :| 0 <= k < |c| && c[k].id == id;
      assert r[k].id == id;
    }
  }

  /** ReplaceFirst: a compare-and-swap when `q` pins the expected state. */
  function ReplaceFirstStep(c: Collection, inTx: bool, q: Query, d: Doc, lock: bool): (r: Reply<(bool, Doc)>)
    ensures lock && !inTx ==> r == Reply(c, Err(TransactionRequired))
    ensures r.result.Ok? ==> r.result.value.1 == (if lock then Locked(d, 1000) else d)
    ensures r.result.Ok? ==> (r.result.value.0 <==> |Filter(c, q)| > 0)
    ensures r.result.Ok? && !r.result.value.0 ==> r.coll == c
    ensures r.result.Ok? && r.result.value.0 ==> exists i: nat :: IsFirstMatch(c, q, i) && r.coll == c[i := r.result.value.1]
    ensures r.result.Err? ==> r.coll == c
    ensures !(lock && !inTx) ==>
      (r.result == Err(ImmutableId) <==> exists i: nat :: IsFirstMatch(c, q, i) && c[i].id != d.id)
  {
    if lock && !inTx then Reply(c, Err(TransactionRequired))
    else
      var d2 := if lock then Locked(d, 1000) else d;
      match FirstMatch(c, q)
      case None =>
        NoFirstMatchEmptyFilter(c, q);
        Reply(c, Ok((false, d2)))
      case Some(i) =>
        FirstMatchInFilter(c, q);
        assert IsFirstMatch(c, q, i) && forall j: nat :: IsFirstMatch(c, q, j) ==> j == i;
        if d2.id != c[i].id then Reply(c, Err(ImmutableId))
        else Reply(c[i := d2], Ok((true, d2)))
  }

  function UpdateStep(c: Collection, inTx: bool, id: Id, patch: Patch, lock: bool): (r: Reply<bool>)
    ensures lock && !inTx ==> r == Reply(c, Err(TransactionRequired))
    ensures !(lock && !inTx) ==> r.result == Ok(id in Ids(c))
    ensures r.result == Ok(true) ==> (exists i :: 0 <= i < |c| && c[i].id == id &&
                                           r.coll == c[i := Locked(ApplyPatch(c[i], patch), if lock then 1 else 0)])
    ensures r.result != Ok(true) ==> r.coll == c
  {
    if lock && !inTx then Reply(c, Err(TransactionRequired))
    else match IndexOf(c, id)
      case None => Reply(c, Ok(false))
      case Some(i) => Reply(c[i := Locked(ApplyPatch(c[i], patch), if lock then 1 else 0)], Ok(true))
  }

  function UpdateFirstStep(c: Collection, inTx: bool, q: Query, patch: Patch, lock: bool): (r: Reply<bool>)
    ensures lock && !inTx ==> r == Reply(c, Err(TransactionRequired))
    ensures !(lock && !inTx) ==> r.result == Ok(|Filter(c, q)| > 0)
    ensures r.result == Ok(true) ==> (exists i: nat :: IsFirstMatch(c, q, i) &&
                                           r.coll == c[i := Locked(ApplyPatch(c[i], patch), if lock then 1 else 0)])
    ensures r.result != Ok(true) ==> r.coll == c
  {
    if lock && !inTx then Reply(c, Err(TransactionRequired))
    else match FirstMatch(c, q)
      case None =>
        NoFirstMatchEmptyFilter(c, q);
        Reply(c, Ok(false))
      case Some(i) =>
        FirstMatchInFilter(c, q);
        Reply(c[i := Locked(ApplyPatch(c[i], patch), if lock then 1 else 0)], Ok(true))
  }

  function UpdateAllStep(c: Collection, inTx: bool, q: Query, patch: Patch, lock: bool): (r: Reply<nat>)
    ensures lock && !inTx ==> r == Reply(c, Err(TransactionRequired))
    ensures !(lock && !inTx) ==>
      r == Reply(PatchMatching(c, q, patch, if lock then 1 else 0), Ok(|Filter(c, q)|))
  {
    if lock && !inTx then Reply(c, Err(TransactionRequired))
    else Reply(PatchMatching(c, q, patch, if lock then 1 else 0), Ok(|Filter(c, q)|))
  }

  /** Upsert: true exactly when nothing matched and a document was inserted. */
  function UpsertStep(c: Collection, inTx: bool, q: Query, patch: Patch, newId: Id): (r: Reply<bool>)
    ensures !inTx ==> r == Reply(c, Err(TransactionRequired))
    ensures inTx && |Filter(c, q)| > 0 ==>
      r.result == Ok(false) && exists i: nat :: IsFirstMatch(c, q, i) && r.coll == c[i := ApplyPatch(c[i], patch)]
    ensures inTx && |Filter(c, q)| == 0 ==>
      if newId in Ids(c) then r == Reply(c, Err(DuplicateKey))
      else r == Reply(c + [ApplyPatch(MergeQuery(Doc(newId, 0, map[]), q), patch)], Ok(true))
    ensures r.result == Ok(true) ==> |Filter(c, q)| == 0 && newId !in Ids(c)
    ensures r.result.Err? ==> r.coll == c
  {
    if !inTx then Reply(c, Err(TransactionRequired))
    else match FirstMatch(c, q)
      case Some(i) =>
        FirstMatchInFilter(c, q);
        Reply(c[i := ApplyPatch(c[i], patch)], Ok(false))
      case None =>
        NoFirstMatchEmptyFilter(c, q);
        if newId in Ids(c) then Reply(c, Err(DuplicateKey))
        else Reply(c + [ApplyPatch(MergeQuery(Doc(newId, 0, map[]), q), patch)], Ok(true))
  }

  function DeleteStep(c: Collection, id: Id): (r: Reply<bool>)
    ensures r.result == Ok(id in Ids(c))
    ensures UniqueIds(c) ==> id !in Ids(r.coll)
    ensures UniqueIds(c) ==> Ids(r.coll) == Ids(c) - {id}
    ensures |r.coll| == |c| - (if id in Ids(c) then 1 else 0)
  {
    match IndexOf(c, id)
    case None => Reply(c, Ok(false))
    case Some(i) =>
      assert UniqueIds(c) ==> UniqueIds(RemoveAt(c, i)) && Ids(RemoveAt(c, i)) == Ids(c) - {id} by {
        if UniqueIds(c) { RemoveAtKeepsIds(c, i); }
      }
      Reply(RemoveAt(c, i), Ok(true))
  }

  function DeleteAllStep(c: Collection, q: Query): (r: Reply<nat>)
    ensures r.result == Ok(|Filter(c, q)|)
    ensures |r.coll| + |Filter(c, q)| == |c|
    ensures forall d :: d in r.coll <==> d in c && !Matches(d, q)
  {
    WithoutSplits(c, q);
    Reply(Without(c, q), Ok(|Filter(c, q)|))
  }

  function DeleteFirstStep(c: Collection, q: Query): (r: Reply<bool>)
    ensures r.result == Ok(|Filter(c, q)| > 0)
    ensures |r.coll| == |c| - (if |Filter(c, q)| > 0 then 1 else 0)
    ensures r.result == Ok(true) ==> exists i: nat :: IsFirstMatch(c, q, i) && r.coll == c[..i] + c[i + 1..]
    ensures r.result == Ok(false) ==> r.coll == c
  {
    match FirstMatch(c, q)
    case None =>
      NoFirstMatchEmptyFilter(c, q);
      Reply(c, Ok(false))
    case Some(i) =>
      FirstMatchInFilter(c, q);
      Reply(RemoveAt(c, i), Ok(true))
  }

  // ---- the manager object ------------------------------------------------

  /** A manager over one collection; `inTx` tells whether the caller's context
      carries a transaction. */
  class Manager {
    var docs: Collection

    ghost predicate Valid()
      reads this
    {
      UniqueIds(docs)
    }

    constructor (docs: Collection)
      requires UniqueIds(docs)
      ensures Valid() && this.docs == docs
    {
      this.docs := docs;
    }

    method Find(inTx: bool, id: Id, lock: bool) returns (r: Result<Option<Doc>, StoreError>)
      requires Valid()
      modifies this
      ensures Valid()
      ensures Reply(docs, r) == FindStep(old(docs), inTx, id, lock)
    {
      var rep := FindStep(docs, inTx, id, lock);
      if rep.coll != docs {
        var i := IndexOf(docs, id).value;
        ReplaceAtKeepsIds(docs, i, Locked(docs[i], 1));
      }
      docs, r := rep.coll, rep.result;
    }

    method FindFirst(inTx: bool, q: Query, skip: nat, lock: bool) returns (r: Result<Option<Doc>, StoreError>)
      requires Valid()
      modifies this
      ensures Valid()
      ensures Reply(docs, r) == FindFirstStep(old(docs), inTx, q, skip, lock)
    {
      var rep := FindFirstStep(docs, inTx, q, skip, lock);
      if rep.coll != docs {
        var i := NthMatch(docs, q, skip).value;
        ReplaceAtKeepsIds(docs, i, Locked(docs[i], 1));
      }
      docs, r := rep.coll, rep.result;
    }

    method FindAll(inTx: bool, q: Query, skip: int, limit: int, lock: bool) returns (r: Result<seq<Doc>, StoreError>)
      requires Valid()
      modifies this
      ensures Valid()
      ensures Reply(docs, r) == FindAllStep(old(docs), inTx, q, skip, limit, lock)
    {
      var rep := FindAllStep(docs, inTx, q, skip, limit, lock);
      PatchMatchingKeepsIds(docs, q, map[], 1);
      docs, r := rep.coll, rep.result;
    }

    method FindEach(inTx: bool, q: Query, skip: int, limit: int, lock: bool) returns (r: Result<seq<Doc>, StoreError>)
      requires Valid()
      modifies this
      ensures Valid()
      ensures Reply(docs, r) == FindEachStep(old(docs), inTx, q, skip, limit, lock)
    {
      r := FindAll(inTx, q, skip, limit, lock);
    }

    method Count(inTx: bool, q: Query, skip: int, limit: int, lock: bool) returns (r: Result<nat, StoreError>)
      requires Valid()
      modifies this
      ensures Valid()
      ensures Reply(docs, r) == CountStep(old(docs), inTx, q, skip, limit, lock)
    {
      var rep := CountStep(docs, inTx, q, skip, limit, lock);
      PatchMatchingKeepsIds(docs, q, map[], 1);
      docs, r := rep.coll, rep.result;
    }

    method Insert(d: Doc, newId: Id) returns (r: Result<Doc, StoreError>)
      requires Valid()
      modifies this
      ensures Valid()
      ensures Reply(docs, r) == InsertStep(old(docs), d, newId)
    {
      var rep := InsertStep(docs, d, newId);
      if rep.result.Ok? { AppendKeepsIds(docs, EnsureId(d, newId)); }
      docs, r := rep.coll, rep.result;
    }

    method InsertIfMissing(inTx: bool, q: Query, d: Doc, newId: Id) returns (r: Result<(bool, Doc), StoreError>)
      requires Valid()
      modifies this
      ensures Valid()
      ensures Reply(docs, r) == InsertIfMissingStep(old(docs), inTx, q, d, newId)
    {
      var rep := InsertIfMissingStep(docs, inTx, q, d, newId);
      if rep.result.Ok? && rep.result.value.0 {
        AppendKeepsIds(docs, OnInsert(EnsureId(d, newId), q));
      }
      docs, r := rep.coll, rep.result;
    }

    method Replace(inTx: bool, d: Doc, lock: bool) returns (r: Result<(bool, Doc), StoreError>)
      requires Valid()
      modifies this
      ensures Valid()
      ensures Reply(docs, r) == ReplaceStep(old(docs), inTx, d, lock)
    {
      var rep := ReplaceStep(docs, inTx, d, lock);
      if rep.result.Ok? && rep.result.value.0 {
        var d2 := rep.result.value.1;
        ReplaceAtKeepsIds(docs, IndexOf(docs, d2.id).value, d2);
      }
      docs, r := rep.coll, rep.result;
    }

    method ReplaceFirst(inTx: bool, q: Query, d: Doc, lock: bool) returns (r: Result<(bool, Doc), StoreError>)
      requires Valid()
      modifies this
      ensures Valid()
      ensures Reply(docs, r) == ReplaceFirstStep(old(docs), inTx, q, d, lock)
    {
      var rep := ReplaceFirstStep(docs, inTx, q, d, lock);
      if rep.result.Ok? && rep.result.value.0 {
        ReplaceAtKeepsIds(docs, FirstMatch(docs, q).value, rep.result.value.1);
      }
      docs, r := rep.coll, rep.result;
    }

    method Update(inTx: bool, id: Id, patch: Patch, lock: bool) returns (r: Result<bool, StoreError>)
      requires Valid()
      modifies this
      ensures Valid()
      ensures Reply(docs, r) == UpdateStep(old(docs), inTx, id, patch, lock)
    {
      var rep := UpdateStep(docs, inTx, id, patch, lock);
      if rep.result == Ok(true) {
        var i := IndexOf(docs, id).value;
        ReplaceAtKeepsIds(docs, i, Locked(ApplyPatch(docs[i], patch), if lock then 1 else 0));
      }
      docs, r := rep.coll, rep.result;
    }

    method UpdateFirst(inTx: bool, q: Query, patch: Patch, lock: bool) returns (r: Result<bool, StoreError>)
      requires Valid()
      modifies this
      ensures Valid()
      ensures Reply(docs, r) == UpdateFirstStep(old(docs), inTx, q, patch, lock)
    {
      var rep := UpdateFirstStep(docs, inTx, q, patch, lock);
      if rep.result == Ok(true) {
        var i := FirstMatch(docs, q).value;
        ReplaceAtKeepsIds(docs, i, Locked(ApplyPatch(docs[i], patch), if lock then 1 else 0));
      }
      docs, r := rep.coll, rep.result;
    }

    method UpdateAll(inTx: bool, q: Query, patch: Patch, lock: bool) returns (r: Result<nat, StoreError>)
      requires Valid()
      modifies this
      ensures Valid()
      ensures Reply(docs, r) == UpdateAllStep(old(docs), inTx, q, patch, lock)
    {
      var rep := UpdateAllStep(docs, inTx, q, patch, lock);
      PatchMatchingKeepsIds(docs, q, patch, if lock then 1 else 0);
      docs, r := rep.coll, rep.result;
    }

    method Upsert(inTx: bool, q: Query, patch: Patch, newId: Id) returns (r: Result<bool, StoreError>)
      requires Valid()
      modifies this
      ensures Valid()
      ensures Reply(docs, r) == UpsertStep(old(docs), inTx, q, patch, newId)
    {
      var rep := UpsertStep(docs, inTx, q, patch, newId);
      if rep.result == Ok(true) {
        var d := MergeQuery(Doc(newId, 0, map[]), q);
        MergeQueryKeepsIdentity(Doc(newId, 0, map[]), q);
        AppendKeepsIds(docs, ApplyPatch(d, patch));
      } else if rep.result == Ok(false) {
        var i := FirstMatch(docs, q).value;
        ReplaceAtKeepsIds(docs, i, ApplyPatch(docs[i], patch));
      }
      docs, r := rep.coll, rep.result;
    }

    method Delete(id: Id) returns (r: Result<bool, StoreError>)
      requires Valid()
      modifies this
      ensures Valid()
      ensures Reply(docs, r) == DeleteStep(old(docs), id)
    {
      var rep := DeleteStep(docs, id);
      if rep.result == Ok(true) { RemoveAtKeepsIds(docs, IndexOf(docs, id).value); }
      docs, r := rep.coll, rep.result;
    }

    method DeleteAll(q: Query) returns (r: Result<nat, StoreError>)
      requires Valid()
      modifies this
      ensures Valid()
      ensures Reply(docs, r) == DeleteAllStep(old(docs), q)
    {
      var rep := DeleteAllStep(docs, q);
      WithoutKeepsIds(docs, q);
      docs, r := rep.coll, rep.result;
    }

    method DeleteFirst(q: Query) returns (r: Result<bool, StoreError>)
      requires Valid()
      modifies this
      ensures Valid()
      ensures Reply(docs, r) == DeleteFirstStep(old(docs), q)
    {
      var rep := DeleteFirstStep(docs, q);
      if rep.result == Ok(true) { RemoveAtKeepsIds(docs, FirstMatch(docs, q).value); }
      docs, r := rep.coll, rep.result;
    }
  }

  lemma {:induction false} WithoutKeepsIds(c: Collection, q: Query)
    requires UniqueIds(c)
    ensures UniqueIds(Without(c, q))
  {
    if c != [] {
      WithoutKeepsIds(c[1..], q);
      var rest := Without(c[1..], q);
      if !Matches(c[0], q) {
        var r := [c[0]] + rest;
        forall i, j | 0 <= i < j < |r| ensures r[i].id != r[j].id {
          if i == 0 {
            assert r[j] in c[1..];
            var k :| 0 <= k < |c[1..]| && c[1..][k] == r[j];
            assert c[k + 1] == r[j];
          } else {
            assert r[i] == rest[i - 1] && r[j] == rest[j - 1];
          }
        }
      }
    }
  }
}
