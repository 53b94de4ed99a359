/** Stored documents, field values and the query conditions the controller
    and the stock validators build; a collection is an ordered sequence of
    documents with distinct identifiers (the natural order of the store). */
module Documents {
  import opened ObjectIds
  import opened Wrappers

  /** A timestamp in nanoseconds; 0 stands for Go's zero time. */
  type Time = int

  /** A stored field value. */
  datatype Value =
    | Null
    | Bool(b: bool)
    | Int(i: int)
    | Str(s: string)
    | Stamp(t: Time)
    | Ref(id: Id)
    | Refs(ids: seq<Id>)
    | Strs(ss: seq<string>)

  /** A document: its `_id`, its lock counter `_lk` and its other fields by storage name. */
  datatype Doc = Doc(id: Id, lock: int, fields: map<string, Value>)

  /** A field that is absent reads as null, as it does for the store's queries. */
  function Get(d: Doc, field: string): Value {
    if field in d.fields then d.fields[field] else Null
  }

  function Set(d: Doc, field: string, v: Value): (r: Doc)
    ensures r.id == d.id && r.lock == d.lock
    ensures Get(r, field) == v
    ensures forall f :: f != field ==> Get(r, f) == Get(d, f)
  {
    d.(fields := d.fields[field := v])
  }

  /** One condition of a query document. */
  datatype Cond =
    | IdIs(id: Id)                        // {"_id": id}
    | IdIn(ids: seq<Id>)                  // {"_id": {"$in": ids}}
    | FieldIs(field: string, v: Value)    // {field: v}
    | FieldIn(field: string, vs: seq<Value>) // {field: {"$in": vs}}

  /** A query is the conjunction of its conditions. */
  type Query = seq<Cond>

  /** Equality against an array field matches when the array holds the value. */
  predicate ValueMatches(actual: Value, expected: Value) {
    actual == expected
    || (actual.Refs? && expected.Ref? && expected.id in actual.ids)
    || (actual.Strs? && expected.Str? && expected.s in actual.ss)
  }

  predicate CondMatches(d: Doc, c: Cond) {
    match c
    case IdIs(id) => d.id == id
    case IdIn(ids) => d.id in ids
    case FieldIs(f, v) => ValueMatches(Get(d, f), v)
    case FieldIn(f, vs) => exists v :: v in vs && ValueMatches(Get(d, f), v)
  }

  predicate Matches(d: Doc, q: Query) {
    forall c :: c in q ==> CondMatches(d, c)
  }

  /** A `$set` update: fields to overwrite. */
  type Patch = map<string, Value>

  function ApplyPatch(d: Doc, p: Patch): Doc {
    d.(fields := d.fields + p)
  }

  /** A collection in its natural order. */
  type Collection = seq<Doc>

  predicate UniqueIds(c: Collection) {
    forall i, j :: 0 <= i < j < |c| ==> c[i].id != c[j].id
  }

  function Ids(c: Collection): (r: set<Id>)
    ensures forall d :: d in c ==> d.id in r
    ensures forall id :: id in r ==> exists d :: d in c && d.id == id
  {
    set d | d in c :: d.id
  }

  /** The collection seen as the map from identifier to document. */
  function AsMap(c: Collection): (m: map<Id, Doc>)
    requires UniqueIds(c)
    ensures m.Keys == Ids(c)
    ensures forall i :: 0 <= i < |c| ==> m[c[i].id] == c[i]
  {
    if c == [] then map[]
    else
      var rest := AsMap(c[1..]);
      assert forall d :: d in c[1..] ==> d.id != c[0].id;
      rest[c[0].id := c[0]]
  }

  /** The documents that match `q`, in natural order. */
  function Filter(c: Collection, q: Query): (r: Collection)
    ensures |r| <= |c|
    ensures forall d :: d in r <==> d in c && Matches(d, q)
  {
    if c == [] then []
    else if Matches(c[0], q) then [c[0]] + Filter(c[1..], q)
    else Filter(c[1..], q)
  }

  /** The position of the first document that matches `q`. */
  function FirstMatch(c: Collection, q: Query): (r: Option<nat>)
    ensures r.Some? ==> r.value < |c| && Matches(c[r.value], q)
    ensures r.Some? ==> forall i :: 0 <= i < r.value ==> !Matches(c[i], q)
    ensures r.None? ==> forall i :: 0 <= i < |c| ==> !Matches(c[i], q)
  {
    if c == [] then None
    else if Matches(c[0], q) then Some(0)
    else match FirstMatch(c[1..], q)
      case None => None
      case Some(k) => Some(k + 1)
  }

  /** `i` is the position of the first document that matches `q`. */
  predicate IsFirstMatch(c: Collection, q: Query, i: nat) {
    i < |c| && Matches(c[i], q) && forall j :: 0 <= j < i ==> !Matches(c[j], q)
  }

  /** The position of the document with identifier `id`. */
  function IndexOf(c: Collection, id: Id): (r: Option<nat>)
    ensures r.Some? ==> r.value < |c| && c[r.value].id == id
    ensures r.None? ==> forall i :: 0 <= i < |c| ==> c[i].id != id
  {
    if c == [] then None
    else if c[0].id == id then Some(0)
    else match IndexOf(c[1..], id)
      case None => None
      case Some(k) => Some(k + 1)
  }

  /** Skip the first `skip` entries and keep at most `limit` (0: no limit). */
  function Window<T>(s: seq<T>, skip: int, limit: int): (r: seq<T>)
    ensures skip <= 0 && limit <= 0 ==> r == s
    ensures |r| <= |s|
    ensures limit > 0 ==> |r| <= limit
    ensures forall x :: x in r ==> x in s
  {
    var from := if skip <= 0 then 0 else if skip > |s| then |s| else skip;
    var rest := s[from..];
    if limit > 0 && limit < |rest| then rest[..limit] else rest
  }

  lemma {:induction false} FilterUniqueIds(c: Collection, q: Query)
    requires UniqueIds(c)
    ensures UniqueIds(Filter(c, q))
  {
    if c != [] {
      var rest := Filter(c[1..], q);
      FilterUniqueIds(c[1..], q);
      if Matches(c[0], q) {
        var r := [c[0]] + rest;
        forall i, j | 0 <= i < j < |r| ensures r[i].id != r[j].id {
          if i == 0 {
            assert r[j] in c[1..];
            var k :| 0 <= k < |c[1..]| && c[1..][k] == r[j];
            assert c[k + 1] == r[j];
          } else {
            assert r[i] == rest[i - 1] && r[j] == rest[j - 1];
          }
        }
      }
    }
  }
}
