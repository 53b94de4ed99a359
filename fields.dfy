/** The readable and writable field lists of a request (JSON:API 1.0,
    "Fetching Data - Sparse Fieldsets"): every attribute and relationship of
    the model, narrowed by the fieldset requested for the model's type. */
module Fields {
  import opened Wrappers
  import opened ModelMeta

  /** The Go names of the attributes, then of the relationships. */
  function AllNames(m: Meta): (r: seq<string>)
    ensures forall n :: n in r <==>
      exists f :: f in m.fields && (f.IsAttribute() || f.IsRelationship()) && f.name == n
  {
    NamesWhere(m.fields, false) + NamesWhere(m.fields, true)
  }

  /** Attributes, or relationships when `rels` holds. */
  predicate Kind(f: Field, rels: bool) {
    if rels then f.IsRelationship() else f.IsAttribute()
  }

  /** The Go names of the attributes (or relationships) among `fs`, in order. */
  function NamesWhere(fs: seq<Field>, rels: bool): (r: seq<string>)
    ensures |r| <= |fs|
    ensures forall n :: n in r <==> exists f :: f in fs && Kind(f, rels) && f.name == n
  {
    if fs == [] then []
    else (if Kind(fs[0], rels) then [fs[0].name] else []) + NamesWhere(fs[1..], rels)
  }

  /** The Go name a fieldset entry refers to: an attribute's JSON key or a
      relationship's name. */
  function KeyToName(m: Meta, key: string): (r: Option<string>)
    ensures r.Some? ==> r.value in AllNames(m)
    ensures r.None? ==> forall f :: f in m.fields ==> (f.jsonKey != key || key == "") && (f.relName != key || key == "")
  {
    match AttributeNamed(m, key)
    case Some(f) => Some(f.name)
    case None =>
      match RelationshipNamed(m, key)
      case Some(f) => Some(f.name)
      case None => None
  }

  /** The first fieldset entry that names neither an attribute nor a relationship. */
  function FirstUnknown(m: Meta, keys: seq<string>): (r: Option<string>)
    ensures r.Some? ==> r.value in keys && KeyToName(m, r.value).None?
    ensures r.None? <==> forall k :: k in keys ==> KeyToName(m, k).Some?
  {
    if keys == [] then None
    else if KeyToName(m, keys[0]).None? then Some(keys[0])
    else FirstUnknown(m, keys[1..])
  }

  function SparseFieldError(key: string): Abort {
    BadRequest("invalid sparse field \"" + key + "\"")
  }

  /** The entries of `a` that also occur in `b`, in the order of `a`. */
  function Intersect(a: seq<string>, b: seq<string>): (r: seq<string>)
    ensures forall x :: x in r <==> x in a && x in b
  {
    if a == [] then [] else (if a[0] in b then [a[0]] else []) + Intersect(a[1..], b)
  }

  /** The fieldset requested for `plural`, empty when there is none. */
  function Requested(fieldsets: Option<map<string, seq<string>>>, plural: string): seq<string> {
    if fieldsets.Some? && plural in fieldsets.value then fieldsets.value[plural] else []
  }

  /** controller.go:1198-1238. `fieldsets` is None for the writable list. */
  method InitialFields(m: Meta, fieldsets: Option<map<string, seq<string>>>) returns (r: Result<seq<string>, Abort>)
    ensures Requested(fieldsets, m.plural) == [] ==> r == Ok(AllNames(m))
    ensures var keys := Requested(fieldsets, m.plural);
      keys != [] ==>
        (r.Err? <==> FirstUnknown(m, keys).Some?) &&
        (r.Err? ==> r.error == SparseFieldError(FirstUnknown(m, keys).value)) &&
        (r.Ok? ==> forall n :: n in r.value <==>
           n in AllNames(m) && exists k :: k in keys && KeyToName(m, k) == Some(n))
  {
    var list := ListNames(m);
    var keys := Requested(fieldsets, m.plural);
    if keys == [] {
      return Ok(list);
    }
    var requested :- ConvertKeys(m, keys);
    var narrowed := IntersectLists(requested, list);
    return Ok(narrowed);
  }

  /** Every attribute name, then every relationship name. */
  method ListNames(m: Meta) returns (list: seq<string>)
    ensures list == AllNames(m)
  {
    list := [];
    var i := 0;
    while i < |m.fields|
      invariant 0 <= i <= |m.fields|
      invariant list == NamesWhere(m.fields[..i], false)
    {
      assert m.fields[..i + 1] == m.fields[..i] + [m.fields[i]];
      NamesWhereConcat(m.fields[..i], [m.fields[i]], false);
      if m.fields[i].IsAttribute() {
        list := list + [m.fields[i].name];
      }
      i := i + 1;
    }
    assert m.fields[..|m.fields|] == m.fields;
    var attrs := list;
    i := 0;
    while i < |m.fields|
      invariant 0 <= i <= |m.fields|
      invariant list == attrs + NamesWhere(m.fields[..i], true)
    {
      assert m.fields[..i + 1] == m.fields[..i] + [m.fields[i]];
      NamesWhereConcat(m.fields[..i], [m.fields[i]], true);
      if m.fields[i].IsRelationship() {
        list := list + [m.fields[i].name];
      }
      i := i + 1;
    }
    assert m.fields[..|m.fields|] == m.fields;
  }

  /** The field names of the known entries of `keys`, in order. */
  function KnownNames(m: Meta, keys: seq<string>): (r: seq<string>)
    ensures forall n :: n in r <==> exists k :: k in keys && KeyToName(m, k) == Some(n)
  {
    if keys == [] then []
    else
      var rest := KnownNames(m, keys[1..]);
      assert forall k :: k in keys <==> k == keys[0] || k in keys[1..];
      match KeyToName(m, keys[0])
      case Some(n) => [n] + rest
      case None => rest
  }

  lemma {:induction false} KnownNamesSnoc(m: Meta, keys: seq<string>, k: string)
    requires KeyToName(m, k).Some?
    ensures KnownNames(m, keys + [k]) == KnownNames(m, keys) + [KeyToName(m, k).value]
  {
    if keys != [] {
      assert (keys + [k])[1..] == keys[1..] + [k];
      KnownNamesSnoc(m, keys[1..], k);
    } else {
      assert KnownNames(m, [k][1..]) == [];
    }
  }

  /** Converts fieldset entries to field names, failing on the first unknown one. */
  method ConvertKeys(m: Meta, keys: seq<string>) returns (r: Result<seq<string>, Abort>)
    ensures r.Err? <==> FirstUnknown(m, keys).Some?
    ensures r.Err? ==> r.error == SparseFieldError(FirstUnknown(m, keys).value)
    ensures r.Ok? ==> r.value == KnownNames(m, keys)
  {
    var requested: seq<string> := [];
    var j := 0;
    while j < |keys|
      invariant 0 <= j <= |keys|
      invariant requested == KnownNames(m, keys[..j])
      invariant FirstUnknown(m, keys) == FirstUnknown(m, keys[j..])
    {
      var key := keys[j];
      assert keys[j..][1..] == keys[j + 1..];
      assert keys[..j + 1] == keys[..j] + [key];
      var name := KeyToName(m, key);
      if name.None? {
        return Err(SparseFieldError(key));
      }
      KnownNamesSnoc(m, keys[..j], key);
      requested := requested + [name.value];
      j := j + 1;
    }
    assert keys[..|keys|] == keys;
    return Ok(requested);
  }

  /** The `Intersect` helper as a loop. */
  method IntersectLists(a: seq<string>, b: seq<string>) returns (r: seq<string>)
    ensures r == Intersect(a, b)
  {
    r := [];
    var j := 0;
    while j < |a|
      invariant 0 <= j <= |a|
      invariant r == Intersect(a[..j], b)
    {
      assert a[..j + 1] == a[..j] + [a[j]];
      IntersectConcat(a[..j], [a[j]], b);
      if a[j] in b {
        r := r + [a[j]];
      }
      j := j + 1;
    }
    assert a[..|a|] == a;
  }

  lemma {:induction false} NamesWhereConcat(a: seq<Field>, b: seq<Field>, p: bool)
    ensures NamesWhere(a + b, p) == NamesWhere(a, p) + NamesWhere(b, p)
  {
    if a == [] {
      assert a + b == b;
    } else {
      var head := if Kind(a[0], p) then [a[0].name] else [];
      assert (a + b)[1..] == a[1..] + b;
      assert NamesWhere(a + b, p) == head + NamesWhere(a[1..] + b, p);
      NamesWhereConcat(a[1..], b, p);
      assert head + (NamesWhere(a[1..], p) + NamesWhere(b, p)) == (head + NamesWhere(a[1..], p)) + NamesWhere(b, p);
    }
  }

  lemma {:induction false} IntersectConcat(a: seq<string>, a2: seq<string>, b: seq<string>)
    ensures Intersect(a + a2, b) == Intersect(a, b) + Intersect(a2, b)
  {
    if a == [] {
      assert a + a2 == a2;
    } else {
      assert (a + a2)[1..] == a[1..] + a2;
      IntersectConcat(a[1..], a2, b);
    }
  }

  /** Narrowing never grants access: the readable fields of a request with a
      fieldset are a subset of the fields of a request without one. */
  lemma ReadableNarrows(m: Meta, keys: seq<string>, n: string)
    requires FirstUnknown(m, keys).None?
    requires exists k :: k in keys && KeyToName(m, k) == Some(n)
    ensures n in AllNames(m)
  {
  }

  /** Every attribute and relationship in a well-formed model can be named in
      a fieldset, by its JSON key or its relationship name. */
  lemma EveryFieldSelectable(m: Meta, f: Field)
    requires WellFormed(m) && f in m.fields && (f.IsAttribute() || f.IsRelationship())
    ensures f.IsAttribute() ==> KeyToName(m, f.jsonKey) == Some(f.name)
    ensures f.IsRelationship() && AttributeNamed(m, f.relName).None? ==> KeyToName(m, f.relName) == Some(f.name)
  {
    if f.IsAttribute() {
      AttributeNamedUnique(m, f);
    } else {
      RelationshipNamedUnique(m, f);
    }
  }
}
