/** Adding to and removing from a to-many relationship (JSON:API 1.0,
    "Updating To-Many Relationships"): the submitted resource identifiers are
    checked one by one and applied to the stored list of ids. */
module ToMany {
  import opened Wrappers
  import opened ObjectIds
  import opened JsonApi

  const TypeMismatch := BadRequest("resource type mismatch")
  const InvalidRelationshipId := BadRequest("invalid relationship id")

  /** The id one submitted identifier names, or why it is rejected. */
  function RefId(ref: Resource, relType: string): (r: Result<Id, Abort>)
    ensures r.Ok? <==> ref.rtype == relType && IsHex(ref.id)
    ensures r.Ok? ==> FromHex(ref.id) == Some(r.value)
  {
    if ref.rtype != relType then Err(TypeMismatch)
    else match FromHex(ref.id)
      case None => Err(InvalidRelationshipId)
      case Some(id) => Ok(id)
  }

  /** Appends `id` unless it is already in the list. */
  function AddOnce(ids: seq<Id>, id: Id): (r: seq<Id>)
    ensures id in r
    ensures ids <= r
    ensures forall x :: x in r <==> x in ids || x == id
  {
    if id in ids then ids else ids + [id]
  }

  /** controller.go:999-1022 over the whole list of submitted identifiers. */
  function Append(ids: seq<Id>, refs: seq<Resource>, relType: string): (r: Result<seq<Id>, Abort>)
    ensures r.Ok? ==> ids <= r.value
    decreases |refs|
  {
    if refs == [] then Ok(ids)
    else match RefId(refs[0], relType)
      case Err(e) => Err(e)
      case Ok(id) => Append(AddOnce(ids, id), refs[1..], relType)
  }

  /** The position of the last occurrence of `id`, -1 when there is none. */
  function LastIndex(ids: seq<Id>, id: Id): (pos: int)
    ensures -1 <= pos < |ids|
    ensures pos >= 0 ==> ids[pos] == id && forall k :: pos < k < |ids| ==> ids[k] != id
    ensures pos == -1 <==> id !in ids
  {
    if ids == [] then -1
    else if ids[|ids| - 1] == id then |ids| - 1
    else LastIndex(ids[..|ids| - 1], id)
  }

  /** Removes the last occurrence of `id`, if any. */
  function RemoveLast(ids: seq<Id>, id: Id): (r: seq<Id>)
  {
    var pos := LastIndex(ids, id);
    if pos >= 0 then ids[..pos] + ids[pos + 1..] else ids
  }

  /** controller.go:1083-1113 over the whole list of submitted identifiers. */
  function Remove(ids: seq<Id>, refs: seq<Resource>, relType: string): (r: Result<seq<Id>, Abort>)
    decreases |refs|
  {
    if refs == [] then Ok(ids)
    else match RefId(refs[0], relType)
      case Err(e) => Err(e)
      case Ok(id) => Remove(RemoveLast(ids, id), refs[1..], relType)
  }

  /** The first identifier that is rejected decides the error. */
  function FirstRejected(refs: seq<Resource>, relType: string): (r: Option<Abort>)
    ensures r.None? <==> forall i :: 0 <= i < |refs| ==> RefId(refs[i], relType).Ok?
  {
    if refs == [] then None
    else match RefId(refs[0], relType)
      case Err(e) => Some(e)
      case Ok(_) =>
        var rest := FirstRejected(refs[1..], relType);
        assert forall i :: 1 <= i < |refs| ==> refs[i] == refs[1..][i - 1];
        rest
  }

  lemma {:induction false} AppendFailsOnFirstRejected(ids: seq<Id>, refs: seq<Resource>, relType: string)
    ensures Append(ids, refs, relType).Err? <==> FirstRejected(refs, relType).Some?
    ensures Append(ids, refs, relType).Err? ==> Append(ids, refs, relType).error == FirstRejected(refs, relType).value
    decreases |refs|
  {
    if refs != [] && RefId(refs[0], relType).Ok? {
      AppendFailsOnFirstRejected(AddOnce(ids, RefId(refs[0], relType).value), refs[1..], relType);
    }
  }

  lemma {:induction false} RemoveFailsOnFirstRejected(ids: seq<Id>, refs: seq<Resource>, relType: string)
    ensures Remove(ids, refs, relType).Err? <==> FirstRejected(refs, relType).Some?
    ensures Remove(ids, refs, relType).Err? ==> Remove(ids, refs, relType).error == FirstRejected(refs, relType).value
    decreases |refs|
  {
    if refs != [] && RefId(refs[0], relType).Ok? {
      RemoveFailsOnFirstRejected(RemoveLast(ids, RefId(refs[0], relType).value), refs[1..], relType);
    }
  }

  method AppendToMany(ids: seq<Id>, refs: seq<Resource>, relType: string) returns (r: Result<seq<Id>, Abort>)
    ensures r == Append(ids, refs, relType)
  {
    var cur := ids;
    var i := 0;
    while i < |refs|
      invariant 0 <= i <= |refs|
      invariant Append(ids, refs, relType) == Append(cur, refs[i..], relType)
    {
      assert refs[i..][1..] == refs[i + 1..];
      var ref := refs[i];
      if ref.rtype != relType {
        return Err(TypeMismatch);
      }
      var refId := FromHex(ref.id);
      if refId.None? {
        return Err(InvalidRelationshipId);
      }
      if refId.value !in cur {
        cur := cur + [refId.value];
      }
      i := i + 1;
    }
    return Ok(cur);
  }

  method RemoveFromMany(ids: seq<Id>, refs: seq<Resource>, relType: string) returns (r: Result<seq<Id>, Abort>)
    ensures r == Remove(ids, refs, relType)
  {
    var cur := ids;
    var i := 0;
    while i < |refs|
      invariant 0 <= i <= |refs|
      invariant Remove(ids, refs, relType) == Remove(cur, refs[i..], relType)
    {
      assert refs[i..][1..] == refs[i + 1..];
      var ref := refs[i];
      if ref.rtype != relType {
        return Err(TypeMismatch);
      }
      var refId := FromHex(ref.id);
      if refId.None? {
        return Err(InvalidRelationshipId);
      }
      var pos := FindLast(cur, refId.value);
      if pos >= 0 {
        cur := cur[..pos] + cur[pos + 1..];
      }
      i := i + 1;
    }
    return Ok(cur);
  }

  /** The scan for the position to remove (controller.go:1095-1106). */
  method FindLast(ids: seq<Id>, id: Id) returns (pos: int)
    ensures pos == LastIndex(ids, id)
  {
    pos := -1;
    var j := 0;
    while j < |ids|
      invariant 0 <= j <= |ids|
      invariant pos == LastIndex(ids[..j], id)
    {
      assert ids[..j + 1][..j] == ids[..j];
      if ids[j] == id {
        pos := j;
      }
      j := j + 1;
    }
    assert ids[..|ids|] == ids;
  }

  // ---- properties ----------------------------------------------------------

  /** After a successful append the list holds the old ids and every
      submitted id, and nothing else. */
  lemma {:induction false} AppendContents(ids: seq<Id>, refs: seq<Resource>, relType: string)
    requires Append(ids, refs, relType).Ok?
    ensures forall x :: x in Append(ids, refs, relType).value <==>
      x in ids || exists i :: 0 <= i < |refs| && FromHex(refs[i].id) == Some(x)
    decreases |refs|
  {
    if refs != [] {
      var id := RefId(refs[0], relType).value;
      AppendContents(AddOnce(ids, id), refs[1..], relType);
      forall x ensures (exists i :: 0 <= i < |refs| && FromHex(refs[i].id) == Some(x)) <==>
        (x == id || exists i :: 0 <= i < |refs[1..]| && FromHex(refs[1..][i].id) == Some(x))
      {
        if exists i :: 0 <= i < |refs| && FromHex(refs[i].id) == Some(x) {
          var i :| 0 <= i < |refs| && FromHex(refs[i].id) == Some(x);
          if i > 0 { assert refs[1..][i - 1] == refs[i]; }
        }
        if exists i :: 0 <= i < |refs[1..]| && FromHex(refs[1..][i].id) == Some(x) {
          var i :| 0 <= i < |refs[1..]| && FromHex(refs[1..][i].id) == Some(x);
          assert refs[i + 1] == refs[1..][i];
        }
      }
    }
  }

  predicate NoDuplicates(ids: seq<Id>) {
    forall i, j :: 0 <= i < j < |ids| ==> ids[i] != ids[j]
  }

  /** Appending never introduces a duplicate. */
  lemma {:induction false} AppendKeepsDistinct(ids: seq<Id>, refs: seq<Resource>, relType: string)
    requires NoDuplicates(ids) && Append(ids, refs, relType).Ok?
    ensures NoDuplicates(Append(ids, refs, relType).value)
    decreases |refs|
  {
    if refs != [] {
      var id := RefId(refs[0], relType).value;
      AppendKeepsDistinct(AddOnce(ids, id), refs[1..], relType);
    }
  }

  /** Appending the same identifiers a second time changes nothing. */
  lemma AppendIdempotent(ids: seq<Id>, refs: seq<Resource>, relType: string)
    requires Append(ids, refs, relType).Ok?
    ensures Append(Append(ids, refs, relType).value, refs, relType) == Append(ids, refs, relType)
  {
    var r := Append(ids, refs, relType).value;
    AppendFailsOnFirstRejected(ids, refs, relType);
    AppendContents(ids, refs, relType);
    forall i | 0 <= i < |refs| ensures FromHex(refs[i].id).value in r {
      assert RefId(refs[i], relType).Ok?;
    }
    AppendPresentNoop(r, refs, relType);
  }

  /** Appending ids that are all present already leaves the list as it is. */
  lemma {:induction false} AppendPresentNoop(ids: seq<Id>, refs: seq<Resource>, relType: string)
    requires FirstRejected(refs, relType).None?
    requires forall i :: 0 <= i < |refs| ==> FromHex(refs[i].id).value in ids
    ensures Append(ids, refs, relType) == Ok(ids)
    decreases |refs|
  {
    if refs != [] {
      assert RefId(refs[0], relType).Ok?;
      assert forall i :: 0 <= i < |refs[1..]| ==> refs[1..][i] == refs[i + 1];
      AppendPresentNoop(ids, refs[1..], relType);
    }
  }

  /** Removing an id that is not in the list is a no-op. */
  lemma RemoveAbsent(ids: seq<Id>, id: Id)
    requires id !in ids
    ensures RemoveLast(ids, id) == ids
  {
  }

  /** Removing deletes exactly one occurrence of a present id. */
  lemma RemoveOneOccurrence(ids: seq<Id>, id: Id)
    requires id in ids
    ensures multiset(RemoveLast(ids, id)) == multiset(ids) - multiset{id}
    ensures |RemoveLast(ids, id)| == |ids| - 1
  {
    var pos := LastIndex(ids, id);
    assert ids == ids[..pos] + [ids[pos]] + ids[pos + 1..];
  }

  /** Earlier occurrences survive: it is the last one that goes. */
  lemma RemoveKeepsEarlier(ids: seq<Id>, id: Id)
    requires id in ids
    ensures forall k :: 0 <= k < LastIndex(ids, id) ==> RemoveLast(ids, id)[k] == ids[k]
    ensures id !in RemoveLast(ids, id)[LastIndex(ids, id)..]
  {
    var pos := LastIndex(ids, id);
    var r := RemoveLast(ids, id);
    var tail := ids[pos + 1..];
    assert r[pos..] == tail;
    forall k | 0 <= k < |tail| ensures tail[k] != id {
      assert tail[k] == ids[pos + 1 + k];
    }
  }

  /** Removing undoes appending a new id. */
  lemma RemoveUndoesAppend(ids: seq<Id>, id: Id)
    requires id !in ids
    ensures RemoveLast(AddOnce(ids, id), id) == ids
  {
    var s := ids + [id];
    assert LastIndex(s, id) == |ids|;
    assert s[..|ids|] == ids;
  }
}
