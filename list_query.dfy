/** The query a List request runs: filters and sorters checked against the
    controller's allowlists, the list limit, skip and limit, and the
    pagination links (JSON:API 1.0, "Fetching Data - Pagination"). */
module ListQuery {
  import opened Wrappers
  import opened ObjectIds
  import opened Documents
  import opened ModelMeta
  import opened JsonApi

  function InvalidFilter(name: string): Abort {
    BadRequest("invalid filter \"" + name + "\"")
  }

  const NotAnObjectId := BadRequest("relationship filter value is not an object id")

  function StrValues(values: seq<string>): (r: seq<Value>)
    ensures |r| == |values| && forall i :: 0 <= i < |values| ==> r[i] == Str(values[i])
  {
    if values == [] then [] else [Str(values[0])] + StrValues(values[1..])
  }

  function RefValues(ids: seq<Id>): (r: seq<Value>)
    ensures |r| == |ids| && forall i :: 0 <= i < |ids| ==> r[i] == Ref(ids[i])
  {
    if ids == [] then [] else [Ref(ids[0])] + RefValues(ids[1..])
  }

  /** The identifiers of a relationship filter, or None when one is not hex. */
  function ParseIds(values: seq<string>): (r: Option<seq<Id>>)
    ensures r.Some? <==> forall v :: v in values ==> IsHex(v)
    ensures r.Some? ==> |r.value| == |values|
    ensures r.Some? ==> forall i :: 0 <= i < |values| ==> FromHex(values[i]) == Some(r.value[i])
  {
    if values == [] then Some([])
    else match (FromHex(values[0]), ParseIds(values[1..]))
      case (Some(id), Some(rest)) => Some([id] + rest)
      case _ => None
  }

  /** The condition one `filter[name]=values` parameter adds (controller.go:1299-1341). */
  function CompileFilter(m: Meta, allowed: seq<string>, name: string, values: seq<string>): (r: Result<Cond, Abort>)
    ensures r.Err? ==> r.error.status == 400
    ensures r.Err? ==> r.error == InvalidFilter(name) || r.error == NotAnObjectId
    ensures r.Ok? ==>
      (exists f :: f in m.fields && f.name in allowed && (f.jsonKey == name || (f.relName == name && f.card.Stored())))
    ensures AttributeNamed(m, name).Some? ==> (r.Ok? <==> AttributeNamed(m, name).value.name in allowed)
    ensures AttributeNamed(m, name).None? ==>
      (r.Ok? <==> RelationshipNamed(m, name).Some? && RelationshipNamed(m, name).value.card.Stored() &&
                  RelationshipNamed(m, name).value.name in allowed && forall v :: v in values ==> IsHex(v))
    ensures AttributeNamed(m, name).None? && RelationshipNamed(m, name).Some? ==>
      var f := RelationshipNamed(m, name).value;
      f.card.Stored() && f.name in allowed && (exists v :: v in values && !IsHex(v)) ==> r == Err(NotAnObjectId)
  {
    match AttributeNamed(m, name)
    case Some(f) =>
      if f.name !in allowed then Err(InvalidFilter(name))
      else if f.kind == BoolKind && |values| == 1 then Ok(FieldIs(f.bson, Bool(values[0] == "true")))
      else Ok(FieldIn(f.bson, StrValues(values)))
    case None =>
      match RelationshipNamed(m, name)
      case Some(f) =>
        if !f.card.Stored() || f.name !in allowed then Err(InvalidFilter(name))
        else (match ParseIds(values)
          case None => Err(NotAnObjectId)
          case Some(ids) => Ok(FieldIn(f.bson, RefValues(ids))))
      case None => Err(InvalidFilter(name))
  }

  /** Converts the ids of one relationship filter one by one (controller.go:1325-1332). */
  method ConvertIds(values: seq<string>) returns (r: Option<seq<Id>>)
    ensures r == ParseIds(values)
  {
    var ids: seq<Id> := [];
    var i := 0;
    while i < |values|
      invariant 0 <= i <= |values|
      invariant forall v :: v in values[..i] ==> IsHex(v)
      invariant |ids| == i && forall k :: 0 <= k < i ==> FromHex(values[k]) == Some(ids[k])
    {
      var id := FromHex(values[i]);
      if id.None? {
        assert values[i] in values;
        return None;
      }
      assert values[..i + 1] == values[..i] + [values[i]];
      ids := ids + [id.value];
      i := i + 1;
    }
    assert values[..|values|] == values;
    ParseIdsUnique(values, ids);
    return Some(ids);
  }

  lemma {:induction false} ParseIdsUnique(values: seq<string>, ids: seq<Id>)
    requires |ids| == |values| && forall k :: 0 <= k < |values| ==> FromHex(values[k]) == Some(ids[k])
    ensures ParseIds(values) == Some(ids)
  {
    if values != [] {
      ParseIdsUnique(values[1..], ids[1..]);
      assert ids == [ids[0]] + ids[1..];
    }
  }

  /** The checks and the condition for one filter parameter. */
  method CompileOne(m: Meta, allowed: seq<string>, name: string, values: seq<string>) returns (r: Result<Cond, Abort>)
    ensures r == CompileFilter(m, allowed, name, values)
  {
    var attr := AttributeNamed(m, name);
    if attr.Some? {
      var f := attr.value;
      if f.name !in allowed {
        return Err(InvalidFilter(name));
      }
      if f.kind == BoolKind && |values| == 1 {
        return Ok(FieldIs(f.bson, Bool(values[0] == "true")));
      }
      return Ok(FieldIn(f.bson, StrValues(values)));
    }
    var rel := RelationshipNamed(m, name);
    if rel.None? {
      return Err(InvalidFilter(name));
    }
    var f := rel.value;
    if !f.card.Stored() || f.name !in allowed {
      return Err(InvalidFilter(name));
    }
    var ids := ConvertIds(values);
    if ids.None? {
      return Err(NotAnObjectId);
    }
    return Ok(FieldIn(f.bson, RefValues(ids.value)));
  }

  /** All filter parameters of the request, visited in no particular order
      (controller.go:1298-1341). The conditions are a conjunction, so the
      order they end up in does not change what matches. */
  method CompileFilters(m: Meta, allowed: seq<string>, filters: map<string, seq<string>>) returns (r: Result<seq<Cond>, Abort>)
    ensures r.Ok? <==> forall k :: k in filters ==> CompileFilter(m, allowed, k, filters[k]).Ok?
    ensures r.Err? ==> exists k :: k in filters && CompileFilter(m, allowed, k, filters[k]) == Err(r.error)
    ensures r.Ok? ==> |r.value| == |filters.Keys|
    ensures r.Ok? ==> forall c :: c in r.value <==> exists k :: k in filters && CompileFilter(m, allowed, k, filters[k]) == Ok(c)
  {
    var conds: seq<Cond> := [];
    var done: set<string> := {};
    while done != filters.Keys
      invariant done <= filters.Keys
      invariant forall k :: k in done ==> CompileFilter(m, allowed, k, filters[k]).Ok?
      invariant |conds| == |done|
      invariant forall c :: c in conds <==> exists k :: k in done && CompileFilter(m, allowed, k, filters[k]) == Ok(c)
      decreases |filters.Keys - done|
    {
      var name :| name in filters.Keys - done;
      var one := CompileOne(m, allowed, name, filters[name]);
      if one.Err? {
        assert name in filters && CompileFilter(m, allowed, name, filters[name]) == Err(one.error);
        return Err(one.error);
      }
      CompiledStep(m, allowed, filters, conds, done, name, one.value);
      conds := conds + [one.value];
      done := done + {name};
    }
    return Ok(conds);
  }

  /** Adding the condition of one more filter keeps the conditions exactly
      those of the filters compiled so far. */
  lemma CompiledStep(m: Meta, allowed: seq<string>, filters: map<string, seq<string>>, conds: seq<Cond>, done: set<string>, name: string, cond: Cond)
    requires name in filters && CompileFilter(m, allowed, name, filters[name]) == Ok(cond)
    requires done <= filters.Keys
    requires forall c :: c in conds <==> exists k :: k in done && CompileFilter(m, allowed, k, filters[k]) == Ok(c)
    ensures forall c :: c in conds + [cond] <==> exists k :: k in done + {name} && CompileFilter(m, allowed, k, filters[k]) == Ok(c)
  {
    forall c | c in conds + [cond]
      ensures exists k :: k in done + {name} && CompileFilter(m, allowed, k, filters[k]) == Ok(c)
    {
      if c !in conds {
        assert c == cond;
      }
    }
    forall c | exists k :: k in done + {name} && CompileFilter(m, allowed, k, filters[k]) == Ok(c)
      ensures c in conds + [cond]
    {
      var k :| k in done + {name} && CompileFilter(m, allowed, k, filters[k]) == Ok(c);
      if k != name {
        assert c in conds;
      }
    }
  }

  /** A string attribute filter keeps the documents whose field holds one of
      the given values. */
  lemma StringFilterSemantics(m: Meta, allowed: seq<string>, name: string, values: seq<string>, d: Doc)
    requires AttributeNamed(m, name).Some?
    requires var f := AttributeNamed(m, name).value; f.name in allowed && !(f.kind == BoolKind && |values| == 1)
    ensures var f := AttributeNamed(m, name).value;
      CompileFilter(m, allowed, name, values).Ok? &&
      (CondMatches(d, CompileFilter(m, allowed, name, values).value) <==>
       exists i :: 0 <= i < |values| && ValueMatches(Get(d, f.bson), Str(values[i])))
  {
    var f := AttributeNamed(m, name).value;
    var vs := StrValues(values);
    if CondMatches(d, FieldIn(f.bson, vs)) {
      var v :| v in vs && ValueMatches(Get(d, f.bson), v);
      var i :| 0 <= i < |vs| && vs[i] == v;
      assert ValueMatches(Get(d, f.bson), Str(values[i]));
    }
    if exists i :: 0 <= i < |values| && ValueMatches(Get(d, f.bson), Str(values[i])) {
      var i :| 0 <= i < |values| && ValueMatches(Get(d, f.bson), Str(values[i]));
      assert vs[i] in vs;
    }
  }

  /** An allowed filter on a stored relationship keeps the documents whose
      field refers to one of the given identifiers. */
  lemma RelationshipFilterSemantics(m: Meta, allowed: seq<string>, name: string, values: seq<string>, d: Doc)
    requires AttributeNamed(m, name).None? && RelationshipNamed(m, name).Some?
    requires var f := RelationshipNamed(m, name).value; f.card.Stored() && f.name in allowed
    requires forall v :: v in values ==> IsHex(v)
    ensures var f := RelationshipNamed(m, name).value;
      CompileFilter(m, allowed, name, values).Ok? &&
      (CondMatches(d, CompileFilter(m, allowed, name, values).value) <==>
       exists i :: 0 <= i < |values| && FromHex(values[i]).Some? && ValueMatches(Get(d, f.bson), Ref(FromHex(values[i]).value)))
  {
    var f := RelationshipNamed(m, name).value;
    var ids := ParseIds(values).value;
    var vs := RefValues(ids);
    if CondMatches(d, FieldIn(f.bson, vs)) {
      var v :| v in vs && ValueMatches(Get(d, f.bson), v);
      var i :| 0 <= i < |vs| && vs[i] == v;
      assert FromHex(values[i]) == Some(ids[i]);
    }
    if exists i :: 0 <= i < |values| && FromHex(values[i]).Some? && ValueMatches(Get(d, f.bson), Ref(FromHex(values[i]).value)) {
      var i :| 0 <= i < |values| && FromHex(values[i]).Some? && ValueMatches(Get(d, f.bson), Ref(FromHex(values[i]).value));
      assert FromHex(values[i]) == Some(ids[i]);
      assert vs[i] in vs;
    }
  }

  /** A bool attribute with a single value keeps the documents whose field
      equals `value == "true"`. */
  lemma BoolFilterSemantics(m: Meta, allowed: seq<string>, name: string, value: string, d: Doc)
    requires AttributeNamed(m, name).Some?
    requires var f := AttributeNamed(m, name).value; f.name in allowed && f.kind == BoolKind
    ensures var f := AttributeNamed(m, name).value;
      CompileFilter(m, allowed, name, [value]).Ok? &&
      (CondMatches(d, CompileFilter(m, allowed, name, [value]).value) <==>
       ValueMatches(Get(d, f.bson), Bool(value == "true")))
  {
  }

  // ---- sorting -------------------------------------------------------------

  predicate Descending(sorter: string) { |sorter| > 0 && sorter[0] == '-' }

  /** The attribute key a sorter names, without its direction. */
  function SortName(sorter: string): string { if Descending(sorter) then sorter[1..] else sorter }

  /** The storage sort key for one `sort` entry (controller.go:1344-1367). */
  function SortKey(m: Meta, allowed: seq<string>, sorter: string): (r: Result<string, Abort>)
    ensures r.Err? ==> r.error.status == 400
    ensures var key := SortName(sorter);
      r.Ok? <==> AttributeNamed(m, key).Some? && AttributeNamed(m, key).value.name in allowed
  {
    var key := SortName(sorter);
    match AttributeNamed(m, key)
    case None => Err(BadRequest("invalid sorter \"" + key + "\""))
    case Some(f) =>
      if f.name !in allowed then Err(BadRequest("unsupported sorter \"" + key + "\""))
      else Ok(if Descending(sorter) then "-" + f.bson else f.bson)
  }

  /** A leading "-" asks for the same key in descending order: it is accepted
      exactly when the bare key is, and it is kept on the storage key. */
  lemma DescendingSortKey(m: Meta, allowed: seq<string>, key: string)
    requires !Descending(key)
    ensures SortKey(m, allowed, "-" + key).Ok? <==> SortKey(m, allowed, key).Ok?
    ensures SortKey(m, allowed, "-" + key).Ok? ==>
      SortKey(m, allowed, "-" + key).value == "-" + SortKey(m, allowed, key).value
  {
    assert ("-" + key)[1..] == key;
  }

  /** `i` is the first sorter that is rejected. */
  predicate FirstBadSorter(m: Meta, allowed: seq<string>, sorting: seq<string>, i: int) {
    && 0 <= i < |sorting|
    && SortKey(m, allowed, sorting[i]).Err?
    && forall j :: 0 <= j < i ==> SortKey(m, allowed, sorting[j]).Ok?
  }

  method CompileSorters(m: Meta, allowed: seq<string>, sorting: seq<string>) returns (r: Result<seq<string>, Abort>)
    ensures r.Ok? <==> forall i :: 0 <= i < |sorting| ==> SortKey(m, allowed, sorting[i]).Ok?
    ensures r.Ok? ==> |r.value| == |sorting|
    ensures r.Ok? ==> forall i :: 0 <= i < |sorting| ==> SortKey(m, allowed, sorting[i]) == Ok(r.value[i])
    ensures r.Err? ==> exists i :: FirstBadSorter(m, allowed, sorting, i) && SortKey(m, allowed, sorting[i]) == Err(r.error)
  {
    var keys: seq<string> := [];
    var i := 0;
    while i < |sorting|
      invariant 0 <= i <= |sorting|
      invariant |keys| == i && forall j :: 0 <= j < i ==> SortKey(m, allowed, sorting[j]) == Ok(keys[j])
    {
      var sorter := sorting[i];
      var descending := Descending(sorter);
      var normalized := if descending then sorter[1..] else sorter;
      var field := AttributeNamed(m, normalized);
      if field.None? {
        assert FirstBadSorter(m, allowed, sorting, i);
        return Err(BadRequest("invalid sorter \"" + normalized + "\""));
      }
      if field.value.name !in allowed {
        assert FirstBadSorter(m, allowed, sorting, i);
        return Err(BadRequest("unsupported sorter \"" + normalized + "\""));
      }
      if descending {
        keys := keys + ["-" + field.value.bson];
      } else {
        keys := keys + [field.value.bson];
      }
      i := i + 1;
    }
    return Ok(keys);
  }

  // ---- pagination ----------------------------------------------------------

  datatype Page = Page(number: int, size: int)

  /** The list limit (controller.go:1369-1378): a missing or too large page size
      becomes the limit, and a missing page number then becomes 1. */
  function ClampPage(listLimit: int, p: Page): (r: Page)
    ensures listLimit > 0 && (p.size == 0 || p.size > listLimit) ==>
      r.size == listLimit && r.number == (if p.number == 0 then 1 else p.number)
    ensures !(listLimit > 0 && (p.size == 0 || p.size > listLimit)) ==> r == p
    ensures listLimit > 0 && p.size >= 0 ==> 0 < r.size <= listLimit
    ensures listLimit > 0 && p.size >= 0 && p.number >= 0 ==> r.number > 0 || p.size > 0
  {
    if listLimit > 0 && (p.size == 0 || p.size > listLimit) then
      Page(if p.number == 0 then 1 else p.number, listLimit)
    else p
  }

  /** Skip and limit of a page (controller.go:1383-1388); zero when the request
      is not paginated. */
  function SkipLimit(p: Page): (r: (int, int))
    ensures p.number > 0 && p.size > 0 ==> r == ((p.number - 1) * p.size, p.size)
    ensures !(p.number > 0 && p.size > 0) ==> r == (0, 0)
    ensures r.0 >= 0 && r.1 >= 0
  {
    if p.number > 0 && p.size > 0 then
      MulNonNeg(p.number - 1, p.size);
      ((p.number - 1) * p.size, p.size)
    else (0, 0)
  }

  lemma MulNonNeg(a: int, b: int)
    requires a >= 0 && b >= 0
    ensures a * b >= 0
  {
  }

  function Min(a: int, b: int): int { if a < b then a else b }

  /** Page `n` of size `k` holds the entries from (n-1)*k up to n*k. */
  lemma PageWindow<T>(s: seq<T>, p: Page)
    requires p.number > 0 && p.size > 0
    ensures var (skip, limit) := SkipLimit(p);
      Window(s, skip, limit) == s[Min(skip, |s|)..Min(skip + limit, |s|)]
  {
    var (skip, limit) := SkipLimit(p);
    MulNonNeg(p.number - 1, p.size);
  }

  /** Consecutive pages do not overlap and leave no gap. */
  lemma PagesAdjacent(p: Page)
    requires p.number > 0 && p.size > 0
    ensures SkipLimit(Page(p.number + 1, p.size)).0 == SkipLimit(p).0 + SkipLimit(p).1
  {
    assert (p.number + 1 - 1) * p.size == (p.number - 1) * p.size + p.size;
  }

  // ---- links ---------------------------------------------------------------

  function DigitChar(d: nat): char
    requires d < 10
  {
    "0123456789"[d]
  }

  /** Decimal digits of `n`, as `%d` prints it. */
  function DigitsOf(n: nat): (r: string)
    ensures |r| > 0 && forall i :: 0 <= i < |r| ==> '0' <= r[i] <= '9'
    decreases n
  {
    if n < 10 then [DigitChar(n)] else DigitsOf(n / 10) + [DigitChar(n % 10)]
  }

  function Decimal(n: int): string {
    if n < 0 then "-" + DigitsOf(-n) else DigitsOf(n)
  }

  function DigitsValue(s: string): nat
    requires forall i :: 0 <= i < |s| ==> '0' <= s[i] <= '9'
  {
    if s == [] then 0 else 10 * DigitsValue(s[..|s| - 1]) + (s[|s| - 1] - '0') as nat
  }

  /** The printed page numbers read back as the numbers themselves. */
  lemma {:induction false} DigitsRoundTrip(n: nat)
    ensures DigitsValue(DigitsOf(n)) == n
    decreases n
  {
    if n >= 10 {
      DigitsRoundTrip(n / 10);
      var s := DigitsOf(n);
      assert s[..|s| - 1] == DigitsOf(n / 10);
    }
  }

  /** The number of the last page: the ceiling of count / size. */
  function LastPage(count: nat, size: int): (r: int)
    requires size > 0
    ensures r >= 0
    ensures r * size >= count
    ensures r > 0 ==> (r - 1) * size < count
  {
    var q := (count + size - 1) / size;
    DivBounds(count + size - 1, size);
    q
  }

  lemma DivBounds(a: nat, b: int)
    requires b > 0
    ensures (a / b) * b <= a < (a / b) * b + b
  {
  }

  function PageLink(self: string, number: int, size: int): string {
    self + "?page[number]=" + Decimal(number) + "&page[size]=" + Decimal(size)
  }

  /** The links of a List response (controller.go:1895-1931); `count` is the
      number of documents the query matches. */
  function ListLinks(self: string, p: Page, count: nat): (r: Links)
    ensures !(p.number > 0 && p.size > 0) ==> r == NoLinks.(self := self)
    ensures p.number > 0 && p.size > 0 ==>
      && r.self == PageLink(self, p.number, p.size)
      && r.first == PageLink(self, 1, p.size)
      && r.last == PageLink(self, LastPage(count, p.size), p.size)
      && (r.prev != "" <==> p.number > 1)
      && (r.prev != "" ==> r.prev == PageLink(self, p.number - 1, p.size))
      && (r.next != "" <==> p.number < LastPage(count, p.size))
      && (r.next != "" ==> r.next == PageLink(self, p.number + 1, p.size))
      && r.related == ""
  {
    if p.number > 0 && p.size > 0 then
      var last := LastPage(count, p.size);
      Links(
        PageLink(self, p.number, p.size),
        "",
        PageLink(self, 1, p.size),
        if p.number > 1 then PageLink(self, p.number - 1, p.size) else "",
        if p.number < last then PageLink(self, p.number + 1, p.size) else "",
        PageLink(self, last, p.size))
    else NoLinks.(self := self)
  }

  /** A next link exists exactly when some matching document lies beyond the
      current page. */
  lemma NextIffMoreDocuments(self: string, p: Page, count: nat)
    requires p.number > 0 && p.size > 0
    ensures ListLinks(self, p, count).next != "" <==> p.number * p.size < count
  {
    var last := LastPage(count, p.size);
    if p.number < last {
      MulMono(p.number, last - 1, p.size);
    } else {
      MulMono(last, p.number, p.size);
    }
  }

  lemma MulMono(a: int, b: int, k: int)
    requires a <= b && k > 0
    ensures a * k <= b * k
  {
  }
}
