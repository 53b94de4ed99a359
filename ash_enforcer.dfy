/** The access-control layer (package ash): the part of an operation's
    context it inspects and changes, and the stock enforcers of
    ash/enforcer.go. An enforcer changes the context by returning the
    changed one; a panic is a `Panic` fault. */
module Ash {
  import opened Wrappers
  import opened JsonApi
  import Documents

  /** The operation, the requested action names and the filter query the
      controller will apply. */
  datatype Ctx = Ctx(op: Operation, collectionAction: string, resourceAction: string, filter: map<string, Documents.Value>)

  datatype Fault = Denied | Panic(msg: string) | Failure(msg: string)

  type Matcher = Ctx -> bool

  /** Runs against a context and yields the changed context or a fault. */
  type Handler = Ctx -> Result<Ctx, Fault>

  /** An enforcer that states which contexts it can handle. */
  datatype Enforcer = Enforcer(matcher: Matcher, handler: Handler)

  const OperationNotSupported := "ash: operation not supported"
  const HiddenKey := "___a_property_no_document_in_this_world_should_have"

  /** The matcher that accepts every context. */
  function All(): (m: Matcher)
    ensures forall c :: m(c)
  {
    (c: Ctx) => true
  }

  /** Access is granted and nothing changes. */
  function AccessGranted(): (h: Handler)
    ensures forall c :: h(c) == Ok(c)
  {
    (c: Ctx) => Ok(c)
  }

  /** Access is refused whatever the context. */
  function AccessDenied(): (h: Handler)
    ensures forall c :: h(c) == Err(Denied)
  {
    (c: Ctx) => Err(Denied)
  }

  /** The filter query is extended with `filters`: a create or a collection
      action, which have no filter query, panic. */
  function AddFilter(filters: map<string, Documents.Value>): (h: Handler)
    ensures forall c :: h(c).Err? <==> c.op == Create || c.op == CollectionActionOp
    ensures forall c :: h(c).Err? ==> h(c).error == Panic(OperationNotSupported)
    ensures forall c :: h(c).Ok? ==> h(c).value == c.(filter := h(c).value.filter)
  {
    (c: Ctx) => if c.op == Create || c.op == CollectionActionOp then Err(Panic(OperationNotSupported))
         else Ok(c.(filter := c.filter + filters))
  }

  /** Every key of `filters` takes its given value, and every other key of
      the filter query keeps its own. */
  lemma AddFilterAssigns(filters: map<string, Documents.Value>, c: Ctx)
    requires AddFilter(filters)(c).Ok?
    ensures forall k :: k in filters ==> k in AddFilter(filters)(c).value.filter && AddFilter(filters)(c).value.filter[k] == filters[k]
    ensures forall k :: k !in filters ==> (k in AddFilter(filters)(c).value.filter <==> k in c.filter)
    ensures forall k :: k !in filters && k in c.filter ==> AddFilter(filters)(c).value.filter[k] == c.filter[k]
  {
  }

  /** Runs the enforcer `AddFilter(filters)` on `c`, assigning the filters
      one key at a time. */
  method ApplyFilter(filters: map<string, Documents.Value>, c: Ctx) returns (r: Result<Ctx, Fault>)
    ensures r == AddFilter(filters)(c)
  {
    if c.op == Create || c.op == CollectionActionOp {
      return Err(Panic(OperationNotSupported));
    }
    var filter := c.filter;
    var rest := filters.Keys;
    while rest != {}
      invariant rest <= filters.Keys
      invariant filter == c.filter + (filters - rest)
      decreases |rest|
    {
      var key :| key in rest;
      AssignOne(c.filter, filters, rest, key);
      filter := filter[key := filters[key]];
      rest := rest - {key};
    }
    assert filters - rest == filters;
    return Ok(c.(filter := filter));
  }

  /** Assigning one more key of `filters` to a partly merged filter query. */
  lemma AssignOne(base: map<string, Documents.Value>, filters: map<string, Documents.Value>, rest: set<string>, key: string)
    requires key in rest && key in filters
    ensures (base + (filters - rest))[key := filters[key]] == base + (filters - (rest - {key}))
  {
  }

  /** Hides every record by filtering on a key no record has: the filter
      query gains that one key and nothing else changes. */
  function HideFilter(): (h: Handler)
    ensures forall c :: h(c).Err? <==> c.op == Create || c.op == CollectionActionOp
    ensures forall c :: h(c).Ok? ==> h(c).value == c.(filter := c.filter[HiddenKey := Documents.Str("value")])
  {
    var hidden := map[HiddenKey := Documents.Str("value")];
    forall m: map<string, Documents.Value> ensures m + hidden == m[HiddenKey := Documents.Str("value")] {
      MergeOne(m, HiddenKey, Documents.Str("value"));
    }
    AddFilter(hidden)
  }

  /** Merging a one-entry map is storing its entry. */
  lemma MergeOne(m: map<string, Documents.Value>, k: string, v: Documents.Value)
    ensures m + map[k := v] == m[k := v]
  {
  }
}
