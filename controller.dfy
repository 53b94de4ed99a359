/** The JSON:API controller of one model (controller.go): the context a
    request is handled in, and the controller whose handlers load, write and
    render the model's documents. */
module Controllers {
  import opened Wrappers
  import opened ObjectIds
  import opened Documents
  import opened ModelMeta
  import opened JsonApi
  import opened Callbacks
  import opened Handling
  import opened CoalManager
  import opened Tokens
  import Fields
  import ListQuery
  import ToMany
  import Assign
  import Render

  /** Every field of a context at one moment. */
  datatype State = State(
    op: Operation,
    request: Request,
    body: Option<Document>,
    inTx: bool,
    selector: Query,
    filters: seq<Cond>,
    sorting: seq<string>,
    readable: seq<string>,
    writable: seq<string>,
    model: Option<Doc>,
    original: Option<Doc>,
    models: seq<Doc>,
    response: Option<Document>,
    code: int)

  /** The context of one request (context.go): the parsed request and
      document, the query the operation builds, what it loads and what it
      responds with. `inTx` tells whether store calls run in a transaction. */
  class Context {
    var op: Operation
    var request: Request
    var body: Option<Document>
    var inTx: bool
    var selector: Query
    var filters: seq<Cond>
    var sorting: seq<string>
    var readable: seq<string>
    var writable: seq<string>
    var model: Option<Doc>
    var original: Option<Doc>
    var models: seq<Doc>
    var response: Option<Document>
    var code: int

    constructor (request: Request, body: Option<Document>)
      ensures Snapshot() == State(List, request, body, false, [], [], [], [], [], None, None, [], None, 0)
    {
      this.op := List;
      this.request := request;
      this.body := body;
      this.inTx := false;
      this.selector := [];
      this.filters := [];
      this.sorting := [];
      this.readable := [];
      this.writable := [];
      this.model := None;
      this.original := None;
      this.models := [];
      this.response := None;
      this.code := 0;
    }

    function Snapshot(): State
      reads this
    {
      State(op, request, body, inTx, selector, filters, sorting, readable, writable,
            model, original, models, response, code)
    }

    /** The context still handles the request of state `s`: the same
        operation, document and transaction, and the same request up to the
        page a listing clamps. */
    ghost predicate Keeps(s: State)
      reads this
    {
      && op == s.op && inTx == s.inTx && body == s.body
      && request == s.request.(pageNumber := request.pageNumber, pageSize := request.pageSize)
    }

    /** What callbacks see of the context. */
    function AsView(): View
      reads this
    {
      View(op, request, model, original, models, selector, filters)
    }

    /** The query documents are looked up with: the selector and every
        filter, all of which must hold. */
    function Query(): Query
      reads this
    {
      selector + filters
    }
  }

  /** What a related controller contributes to preloading: its model, its
      soft-delete key and its collection, for every controller of the group
      whose collection is known. */
  function RelatedOf(group: map<string, Controller>, colls: map<string, Collection>, plural: string, own: Collection): (r: map<string, Render.Related>)
    ensures forall t :: t in r <==> t in group && (t == plural || t in colls)
    ensures plural in group ==> r[plural].docs == own
  {
    map t | t in group && (t == plural || t in colls) ::
      Render.Related(group[t].cfg.meta, SoftDeleteKey(group[t].cfg), if t == plural then own else colls[t])
  }

  /** `rs` is the rendering of `models`, in order, with their relationships
      preloaded together. */
  ghost predicate Listed(m: Meta, readable: seq<string>, prefix: string, related: map<string, Render.Related>, models: seq<Doc>, rs: seq<Resource>) {
    && Render.Preload(m, readable, related, models).Ok?
    && |rs| == |models|
    && forall i :: 0 <= i < |models| ==>
         Render.Construct(m, readable, prefix, models[i], Some(Render.Preload(m, readable, related, models).value)) == Ok(rs[i])
  }

  /** The resources of a listing are those of its models' type and ids. */
  lemma ListedIds(m: Meta, readable: seq<string>, prefix: string, related: map<string, Render.Related>, models: seq<Doc>, rs: seq<Resource>)
    requires Listed(m, readable, prefix, related, models, rs)
    ensures |rs| == |models|
    ensures forall i :: 0 <= i < |models| ==> rs[i].rtype == m.plural && rs[i].id == Hex(models[i].id)
  {
    forall i | 0 <= i < |models| ensures rs[i].rtype == m.plural && rs[i].id == Hex(models[i].id) {
      assert Render.Construct(m, readable, prefix, models[i], Some(Render.Preload(m, readable, related, models).value)) == Ok(rs[i]);
    }
  }

  /** A page of the documents that match a query extending `selector`
      holds only documents of the collection that match `selector`. */
  lemma WindowMatches(c: Collection, selector: Query, q: Query, skip: int, limit: int)
    requires selector <= q
    ensures forall d :: d in Window(Filter(c, q), skip, limit) ==> d in c && Matches(d, selector)
  {
    forall d | d in Window(Filter(c, q), skip, limit) ensures d in c && Matches(d, selector) {
      assert d in Filter(c, q);
      forall k | k in selector ensures CondMatches(d, k) {
        assert k in q;
      }
    }
  }

  /** The data of a related listing: one resource or none for to-one and
      has-one, all of them for to-many and has-many, each the rendering of
      the listed document in order. */
  ghost predicate RelatedData(data: Hybrid, card: Card, plural: string, listed: seq<Doc>) {
    if card.ToOne? || card.HasOne? then
      && data.One? && |listed| <= 1
      && (data.one.Some? <==> |listed| == 1)
      && (data.one.Some? ==> data.one.value.rtype == plural && data.one.value.id == Hex(listed[0].id))
    else
      && data.Many? && |data.many| == |listed|
      && forall i :: 0 <= i < |listed| ==> data.many[i].rtype == plural && data.many[i].id == Hex(listed[i].id)
  }

  /** The controller of one model. */
  class Controller {
    const cfg: Config
    /** Which operations the controller supports; every one once prepared
        without a choice. */
    var supported: Option<View -> bool>
    /** The HTTP methods of each action, as the request parser knows them. */
    var collectionMethods: map<string, seq<string>>
    var resourceMethods: map<string, seq<string>>

    constructor (cfg: Config, supported: Option<View -> bool>)
      ensures this.cfg == cfg && this.supported == supported
      ensures collectionMethods == map[] && resourceMethods == map[]
    {
      this.cfg := cfg;
      this.supported := supported;
      this.collectionMethods := map[];
      this.resourceMethods := map[];
    }

    /** The controller was prepared without a problem. */
    ghost predicate Ready()
      reads this
    {
      && WellFormed(cfg.meta)
      && supported.Some?
      && FlagProblem(cfg).None?
      && (forall n :: n in cfg.collectionActions ==> !BadCollectionAction(n))
      && (forall n :: n in cfg.resourceActions ==> !BadResourceAction(cfg.meta, n))
      && collectionMethods == ActionMethods(cfg.collectionActions)
      && resourceMethods == ActionMethods(cfg.resourceActions)
    }

    /** The controller belongs to `group`, whose controllers are keyed by
        their model's plural name and are all prepared; `colls` holds the
        collections of the other models. */
    ghost predicate Grouped(group: map<string, Controller>, colls: map<string, Collection>)
      reads this, set t | t in group :: group[t]
    {
      && cfg.meta.plural in group && group[cfg.meta.plural] == this
      && (forall t :: t in group ==> group[t].cfg.meta.plural == t && group[t].Ready())
      && (forall t :: t in group ==> t == cfg.meta.plural || t in colls)
      && (forall t :: t in colls ==> UniqueIds(colls[t]))
    }

    /** controller.go:148-241. The panics of the source are the returned
        problem: the first invalid action name met, then the first flagged
        field that is missing or of the wrong type. */
    method Prepare() returns (problem: Option<string>)
      requires WellFormed(cfg.meta)
      modifies this
      ensures problem.None? <==> Ready()
      ensures old(supported).None? ==> supported.Some? && forall v :: supported.value(v)
      ensures old(supported).Some? ==> supported.Some? && forall v :: supported.value(v) == old(supported).value(v)
      ensures (exists n :: n in cfg.collectionActions && BadCollectionAction(n)) ==>
        exists n :: n in cfg.collectionActions && BadCollectionAction(n) && problem == Some(InvalidCollectionAction(n))
      ensures (forall n :: n in cfg.collectionActions ==> !BadCollectionAction(n)) &&
              (exists n :: n in cfg.resourceActions && BadResourceAction(cfg.meta, n)) ==>
        exists n :: n in cfg.resourceActions && BadResourceAction(cfg.meta, n) && problem == Some(InvalidResourceAction(n))
      ensures (forall n :: n in cfg.collectionActions ==> !BadCollectionAction(n)) &&
              (forall n :: n in cfg.resourceActions ==> !BadResourceAction(cfg.meta, n)) ==>
        problem == FlagProblem(cfg)
    {
      if supported.None? {
        supported := Some((v: View) => true);
      }
      var collection, cm := CollectionMethods(cfg.collectionActions);
      if collection.Some? {
        return collection;
      }
      collectionMethods := cm;
      var resource, rm := ResourceMethods(cfg.meta, cfg.resourceActions);
      if resource.Some? {
        return resource;
      }
      resourceMethods := rm;
      problem := FlagProblem(cfg);
    }

    /** controller.go:163-182: the methods of each collection action, or the
        first invalid name met. */
    static method CollectionMethods(actions: map<string, Action>) returns (problem: Option<string>, methods: map<string, seq<string>>)
      ensures problem.None? <==> forall n :: n in actions ==> !BadCollectionAction(n)
      ensures problem.Some? ==> exists n :: n in actions && BadCollectionAction(n) && problem == Some(InvalidCollectionAction(n))
      ensures problem.None? ==> methods == ActionMethods(actions)
    {
      var keys := actions.Keys;
      var done: set<string> := {};
      methods := map[];
      while done != keys
        invariant done <= keys
        invariant forall n :: n in done ==> !BadCollectionAction(n)
        invariant methods.Keys == done
        invariant forall n :: n in done ==> methods[n] == actions[n].methods
        decreases keys - done
      {
        var n :| n in keys && n !in done;
        if BadCollectionAction(n) {
          return Some(InvalidCollectionAction(n)), methods;
        }
        methods := methods[n := actions[n].methods];
        done := done + {n};
      }
      return None, methods;
    }

    /** controller.go:184-203: the methods of each resource action, or the
        first invalid name met. */
    static method ResourceMethods(m: Meta, actions: map<string, Action>) returns (problem: Option<string>, methods: map<string, seq<string>>)
      ensures problem.None? <==> forall n :: n in actions ==> !BadResourceAction(m, n)
      ensures problem.Some? ==> exists n :: n in actions && BadResourceAction(m, n) && problem == Some(InvalidResourceAction(n))
      ensures problem.None? ==> methods == ActionMethods(actions)
    {
      var keys := actions.Keys;
      var done: set<string> := {};
      methods := map[];
      while done != keys
        invariant done <= keys
        invariant forall n :: n in done ==> !BadResourceAction(m, n)
        invariant methods.Keys == done
        invariant forall n :: n in done ==> methods[n] == actions[n].methods
        decreases keys - done
      {
        var n :| n in keys && n !in done;
        if BadResourceAction(m, n) {
          return Some(InvalidResourceAction(n)), methods;
        }
        methods := methods[n := actions[n].methods];
        done := done + {n};
      }
      return None, methods;
    }

    /** controller.go:1933-1961: runs `list` on the context; a failure leaves
        the context as it was, a success keeps the callbacks' filters and
        model. */
    method RunCallbacks(list: seq<Callback>, ctx: Context, status: int) returns (r: Outcome<()>)
      modifies ctx
      ensures var run := Run(list, old(ctx.AsView()), status);
        && (run.Err? ==> r == Err(run.error) && ctx.Snapshot() == old(ctx.Snapshot()))
        && (run.Ok? ==> r.Ok? && ctx.Snapshot() == old(ctx.Snapshot()).(filters := run.value.filters, model := run.value.model))
    {
      var run := Callbacks.RunCallbacks(list, ctx.AsView(), status);
      if run.Err? {
        return Err(run.error);
      }
      ctx.filters := run.value.filters;
      ctx.model := run.value.model;
      return Ok(());
    }

    /** controller.go:1963-1978. */
    method RunAction(action: Action, ctx: Context, status: int) returns (r: Outcome<()>)
      modifies ctx
      ensures var run := Callbacks.RunAction(action.handler, old(ctx.AsView()), status);
        && (run.Err? ==> r == Err(run.error) && ctx.Snapshot() == old(ctx.Snapshot()))
        && (run.Ok? ==> r.Ok? && ctx.Snapshot() == old(ctx.Snapshot()).(filters := run.value.filters, model := run.value.model))
    {
      var run := Callbacks.RunAction(action.handler, ctx.AsView(), status);
      if run.Err? {
        return Err(run.error);
      }
      ctx.filters := run.value.filters;
      ctx.model := run.value.model;
      return Ok(());
    }

    /** The part of controller.go:243-325 that precedes the operation: the
        id check, the operation, the support check and the initial
        selector, filters and field lists. */
    method Begin(ctx: Context, selector: Query) returns (r: Outcome<()>)
      requires Ready()
      modifies ctx
      ensures IdRejected(old(ctx.request)) ==> r == Err(InvalidResourceId) && ctx.Snapshot() == old(ctx.Snapshot())
      ensures var op := OperationOf(old(ctx.request).intent);
        !IdRejected(old(ctx.request)) && !supported.value(old(ctx.AsView()).(op := op)) ==> r == Err(Unsupported)
      ensures ctx.Snapshot() == old(ctx.Snapshot()).(op := ctx.op, selector := ctx.selector, filters := ctx.filters,
                                                    readable := ctx.readable, writable := ctx.writable)
      ensures r.Ok? ==>
        && !IdRejected(ctx.request)
        && ctx.op == OperationOf(ctx.request.intent)
        && supported.value(old(ctx.AsView()).(op := ctx.op))
        && ctx.selector == selector && ctx.filters == []
        && ReadableFor(cfg.meta, ctx.request, ctx.readable)
        && ctx.writable == Fields.AllNames(cfg.meta)
    {
      if IdRejected(ctx.request) {
        return Err(InvalidResourceId);
      }
      ctx.op := OperationOf(ctx.request.intent);
      if !supported.value(ctx.AsView()) {
        return Err(Unsupported);
      }
      ctx.selector := selector;
      ctx.filters := [];
      r := SetFields(ctx);
    }

    /** controller.go:315-316: the fields the request may read and write. */
    method SetFields(ctx: Context) returns (r: Outcome<()>)
      modifies ctx
      ensures ctx.Snapshot() == old(ctx.Snapshot()).(readable := ctx.readable, writable := ctx.writable)
      ensures r.Ok? ==> ReadableFor(cfg.meta, ctx.request, ctx.readable) && ctx.writable == Fields.AllNames(cfg.meta)
      ensures r.Err? <==> Fields.Requested(Some(ctx.request.fields), cfg.meta.plural) != [] &&
                          Fields.FirstUnknown(cfg.meta, Fields.Requested(Some(ctx.request.fields), cfg.meta.plural)).Some?
    {
      var readable := Fields.InitialFields(cfg.meta, Some(ctx.request.fields));
      if readable.Err? {
        return Err(readable.error);
      }
      var writable := Fields.InitialFields(cfg.meta, None);
      ctx.readable := readable.value;
      ctx.writable := writable.value;
      return Ok(());
    }

    /** Adds `extra` to the selector and runs the authorizers, as the
        loaders do before they query the store. */
    method Authorize(ctx: Context, extra: Query) returns (r: Outcome<()>)
      modifies ctx
      ensures var sel := old(ctx.selector) + extra;
        var run := Run(cfg.authorizers, old(ctx.AsView()).(selector := sel), AuthorizerStatus);
        && (run.Err? ==> r == Err(run.error) && ctx.Snapshot() == old(ctx.Snapshot()).(selector := sel))
        && (run.Ok? ==> r.Ok? && ctx.Snapshot() == old(ctx.Snapshot()).(selector := sel, filters := run.value.filters, model := run.value.model))
    {
      ctx.selector := ctx.selector + extra;
      r := RunCallbacks(cfg.authorizers, ctx, AuthorizerStatus);
    }

    /** The store step of controller.go:1260-1281: the first document the
        context's query matches, locked when the operation writes. */
    method FindModel(ctx: Context, store: Manager) returns (r: Outcome<()>)
      requires store.Valid()
      modifies ctx, store
      ensures store.Valid()
      ensures ctx.Snapshot() == old(ctx.Snapshot()).(model := ctx.model, original := ctx.original)
      ensures r.Err? || !ctx.op.Write() ==> store.docs == old(store.docs)
      ensures r == Err(NotFound) ==> |Filter(old(store.docs), ctx.Query())| == 0
      ensures r.Ok? ==>
        && ctx.model.Some?
        && Matches(ctx.model.value, ctx.Query())
        && ctx.model.value in store.docs
        && Ids(store.docs) == Ids(old(store.docs)) && |store.docs| == |old(store.docs)|
        && (!ctx.op.Write() ==> ctx.model.value in old(store.docs))
        && ctx.original == (if ctx.op == Update then ctx.model else old(ctx.original))
    {
      var lock := ctx.op.Write();
      var found := store.FindFirst(ctx.inTx, ctx.Query(), 0, lock);
      if found.Err? {
        return Err(StoreAbort(found.error));
      }
      if found.value.None? {
        return Err(NotFound);
      }
      FoundDocument(old(store.docs), ctx.inTx, ctx.Query(), lock);
      ctx.model := found.value;
      if ctx.op == Update {
        ctx.original := found.value;
      }
      return Ok(());
    }

    /** controller.go:1240-1282: narrows the selector to the requested id
        (and to documents not soft-deleted), runs the authorizers and loads
        the first match, locked when the operation writes. `q` is the query
        the store was asked. */
    method LoadModel(ctx: Context, store: Manager) returns (r: Outcome<()>, ghost q: Query)
      requires store.Valid()
      modifies ctx, store
      ensures store.Valid()
      ensures ctx.Snapshot() == old(ctx.Snapshot()).(selector := ctx.selector, filters := ctx.filters,
                                                    model := ctx.model, original := ctx.original)
      ensures r.Err? || !ctx.op.Write() ==> store.docs == old(store.docs)
      ensures FromHex(ctx.request.resourceId).None? ==> r == Err(InvalidObjectId)
      ensures var id := FromHex(ctx.request.resourceId);
        id.Some? ==>
          var sel := old(ctx.selector) + [IdIs(id.value)] + SoftDeleteCond(cfg);
          var run := Run(cfg.authorizers, old(ctx.AsView()).(selector := sel), AuthorizerStatus);
          && ctx.selector == sel
          && (run.Err? ==> r == Err(run.error))
          && (run.Ok? ==> ctx.filters == run.value.filters && q == ctx.Query())
      ensures r == Err(NotFound) && NoOwnStatus(cfg.authorizers) ==> |Filter(old(store.docs), q)| == 0
      ensures r.Ok? ==>
        && ctx.model.Some?
        && Matches(ctx.model.value, q)
        && ctx.model.value.id == FromHex(ctx.request.resourceId).value
        && (SoftDeleteKey(cfg).Some? ==> Get(ctx.model.value, SoftDeleteKey(cfg).value) == Null)
        && ctx.model.value in store.docs
        && Ids(store.docs) == Ids(old(store.docs)) && |store.docs| == |old(store.docs)|
        && (!ctx.op.Write() ==> ctx.model.value in old(store.docs))
        && ctx.original == (if ctx.op == Update then ctx.model else old(ctx.original))
    {
      q := [];
      var id := FromHex(ctx.request.resourceId);
      if id.None? {
        return Err(InvalidObjectId), q;
      }
      var auth := Authorize(ctx, [IdIs(id.value)] + SoftDeleteCond(cfg));
      assert old(ctx.selector) + ([IdIs(id.value)] + SoftDeleteCond(cfg)) == old(ctx.selector) + [IdIs(id.value)] + SoftDeleteCond(cfg);
      if auth.Err? {
        return auth, q;
      }
      q := ctx.Query();
      r := FindModel(ctx, store);
      if r.Ok? {
        LoadedMatches(cfg, ctx.model.value, old(ctx.selector), id.value, ctx.filters);
      }
    }

    /** The request part of controller.go:1298-1378: the requested filters
        and sorters, compiled and added, and the page clamped to the list
        limit. */
    method AddQuery(ctx: Context) returns (r: Outcome<()>)
      modifies ctx
      ensures ctx.Keeps(old(ctx.Snapshot()))
      ensures ctx.Snapshot() == old(ctx.Snapshot()).(request := ctx.request, filters := ctx.filters, sorting := ctx.sorting)
      ensures var fs := old(ctx.request).filters;
        (exists k :: k in fs && ListQuery.CompileFilter(cfg.meta, cfg.filters, k, fs[k]).Err?) ==> r.Err?
      ensures var ss := old(ctx.request).sorting;
        (exists i :: 0 <= i < |ss| && ListQuery.SortKey(cfg.meta, cfg.sorters, ss[i]).Err?) ==> r.Err?
      ensures r.Ok? ==>
        var fs := old(ctx.request).filters;
        && old(ctx.filters) <= ctx.filters
        && forall k :: k in fs ==> ListQuery.CompileFilter(cfg.meta, cfg.filters, k, fs[k]).Ok? &&
                                   ListQuery.CompileFilter(cfg.meta, cfg.filters, k, fs[k]).value in ctx.filters
      ensures r.Ok? ==>
        var ss := old(ctx.request).sorting;
        && |ctx.sorting| == |old(ctx.sorting)| + |ss|
        && ctx.sorting[..|old(ctx.sorting)|] == old(ctx.sorting)
        && forall i :: 0 <= i < |ss| ==> ListQuery.SortKey(cfg.meta, cfg.sorters, ss[i]) == Ok(ctx.sorting[|old(ctx.sorting)| + i])
      ensures r.Ok? ==>
        var p := ListQuery.ClampPage(cfg.listLimit, ListQuery.Page(old(ctx.request).pageNumber, old(ctx.request).pageSize));
        ctx.request == old(ctx.request).(pageNumber := p.number, pageSize := p.size)
    {
      var compiled := ListQuery.CompileFilters(cfg.meta, cfg.filters, ctx.request.filters);
      if compiled.Err? {
        return Err(compiled.error);
      }
      ctx.filters := ctx.filters + compiled.value;
      var keys := ListQuery.CompileSorters(cfg.meta, cfg.sorters, ctx.request.sorting);
      if keys.Err? {
        return Err(keys.error);
      }
      ctx.sorting := ctx.sorting + keys.value;
      var p := ListQuery.ClampPage(cfg.listLimit, ListQuery.Page(ctx.request.pageNumber, ctx.request.pageSize));
      ctx.request := ctx.request.(pageNumber := p.number, pageSize := p.size);
      return Ok(());
    }

    /** controller.go:1284-1399: hides soft-deleted documents, adds the
        requested filters and sorters, honours the list limit, runs the
        authorizers and loads the page of matching documents. `q` is the
        query the store was asked. */
    method LoadModels(ctx: Context, store: Manager) returns (r: Outcome<()>, ghost q: Query)
      requires store.Valid()
      modifies ctx, store
      ensures ctx.Keeps(old(ctx.Snapshot()))
      ensures store.Valid() && store.docs == old(store.docs)
      ensures ctx.Snapshot() == old(ctx.Snapshot()).(request := ctx.request, selector := ctx.selector, filters := ctx.filters,
                                                    sorting := ctx.sorting, model := ctx.model, models := ctx.models)
      ensures ctx.selector == old(ctx.selector) + SoftDeleteCond(cfg)
      ensures var fs := old(ctx.request).filters;
        (exists k :: k in fs && ListQuery.CompileFilter(cfg.meta, cfg.filters, k, fs[k]).Err?) ==> r.Err?
      ensures var ss := old(ctx.request).sorting;
        (exists i :: 0 <= i < |ss| && ListQuery.SortKey(cfg.meta, cfg.sorters, ss[i]).Err?) ==> r.Err?
      ensures r.Ok? ==>
        var fs := old(ctx.request).filters;
        && q == ctx.Query()
        && old(ctx.selector) + SoftDeleteCond(cfg) <= q
        && forall k :: k in fs ==> ListQuery.CompileFilter(cfg.meta, cfg.filters, k, fs[k]).Ok? &&
                                   ListQuery.CompileFilter(cfg.meta, cfg.filters, k, fs[k]).value in q
      ensures r.Ok? ==>
        var p := ListQuery.ClampPage(cfg.listLimit, ListQuery.Page(old(ctx.request).pageNumber, old(ctx.request).pageSize));
        && ctx.request == old(ctx.request).(pageNumber := p.number, pageSize := p.size)
        && ctx.models == Window(Filter(store.docs, q), ListQuery.SkipLimit(p).0, ListQuery.SkipLimit(p).1)
    {
      q := [];
      ctx.selector := ctx.selector + SoftDeleteCond(cfg);
      var added := AddQuery(ctx);
      if added.Err? {
        return added, q;
      }
      ghost var compiled := ctx.filters;
      var auth := RunCallbacks(cfg.authorizers, ctx, AuthorizerStatus);
      if auth.Err? {
        return auth, q;
      }
      q := ctx.Query();
      var p := ListQuery.Page(ctx.request.pageNumber, ctx.request.pageSize);
      var (skip, limit) := ListQuery.SkipLimit(p);
      var found := store.FindAll(ctx.inTx, ctx.Query(), skip, limit, false);
      if found.Err? {
        return Err(StoreAbort(found.error)), q;
      }
      ctx.models := found.value;
      assert compiled <= ctx.filters;
      return Ok(()), q;
    }

    /** controller.go:1895-1931: the links of a listing; `count` is the
        number of documents the query matches, asked of the store only when
        the request is paginated. */
    method ListLinks(ctx: Context, store: Manager) returns (r: Outcome<Links>, ghost count: nat)
      requires store.Valid()
      modifies store
      ensures store.Valid() && store.docs == old(store.docs)
      ensures !(ctx.request.pageNumber > 0 && ctx.request.pageSize > 0) ==> r.Ok?
      ensures r.Ok? ==>
        && count == |Filter(store.docs, ctx.Query())|
        && r.value == ListQuery.ListLinks(Self(ctx.request), ListQuery.Page(ctx.request.pageNumber, ctx.request.pageSize), count)
    {
      count := |Filter(store.docs, ctx.Query())|;
      var self := Self(ctx.request);
      var p := ListQuery.Page(ctx.request.pageNumber, ctx.request.pageSize);
      if !(p.number > 0 && p.size > 0) {
        return Ok(ListQuery.ListLinks(self, p, 0)), count;
      }
      var counted := store.Count(ctx.inTx, ctx.Query(), 0, 0, false);
      if counted.Err? {
        return Err(StoreAbort(counted.error)), count;
      }
      return Ok(ListQuery.ListLinks(self, p, counted.value)), count;
    }

    // ---- the handlers --------------------------------------------------------

    /** controller.go:1680-1689 after preloadRelationships: one model
        rendered with its relationships preloaded. */
    method ResourceForModel(readable: seq<string>, prefix: string, related: map<string, Render.Related>, d: Doc) returns (r: Outcome<Resource>)
      ensures r == ResourceFor(cfg.meta, readable, prefix, related, d)
    {
      var pre := Render.PreloadRelationships(cfg.meta, readable, related, [d]);
      if pre.Err? {
        return Err(pre.error);
      }
      r := Render.Construct(cfg.meta, readable, prefix, d, Some(pre.value));
    }

    /** controller.go:389-397: the models of a listing rendered in order,
        with their relationships preloaded together. */
    method ResourcesForListing(readable: seq<string>, prefix: string, related: map<string, Render.Related>, models: seq<Doc>)
      returns (r: Outcome<seq<Resource>>)
      ensures Render.Preload(cfg.meta, readable, related, models).Err? ==> r == Err(Render.Preload(cfg.meta, readable, related, models).error)
      ensures r.Ok? ==> Listed(cfg.meta, readable, prefix, related, models, r.value)
    {
      var pre := Render.PreloadRelationships(cfg.meta, readable, related, models);
      if pre.Err? {
        return Err(pre.error);
      }
      r := Render.ResourcesForModels(cfg.meta, readable, prefix, models, Some(pre.value));
    }

    /** The context responds with `d` rendered with its relationships
        preloaded, under the request's own path and with status 200. */
    ghost predicate Responded(ctx: Context, related: map<string, Render.Related>, d: Doc)
      reads ctx
    {
      var res := ResourceFor(cfg.meta, ctx.readable, ctx.request.prefix, related, d);
      && res.Ok?
      && ctx.response == Some(Document(Some(One(Some(res.value))), NoLinks.(self := Self(ctx.request))))
      && ctx.code == 200
    }

    /** Sets the response and its status, then runs the notifiers: the
        last step of every handler that responds with a document. */
    method Respond(ctx: Context, response: Option<Document>, code: int) returns (r: Outcome<()>)
      modifies ctx
      ensures ctx.Snapshot() == old(ctx.Snapshot()).(filters := ctx.filters, model := ctx.model, response := response, code := code)
      ensures old(ctx.filters) <= ctx.filters
      ensures var run := Run(cfg.notifiers, old(ctx.AsView()), NotifierStatus);
        (r.Ok? <==> run.Ok?) && (run.Err? ==> r == Err(run.error))
    {
      ctx.response := response;
      ctx.code := code;
      r := RunCallbacks(cfg.notifiers, ctx, NotifierStatus);
    }

    /** Runs the decorators; the model they leave is the one rendered. The
        source dereferences that model, so a model a decorator dropped is an
        internal error here. */
    method Decorate(ctx: Context) returns (r: Outcome<Doc>)
      modifies ctx
      ensures ctx.Snapshot() == old(ctx.Snapshot()).(filters := ctx.filters, model := ctx.model)
      ensures old(ctx.filters) <= ctx.filters
      ensures r.Ok? ==> ctx.model == Some(r.value)
      ensures cfg.decorators == [] ==> ctx.Snapshot() == old(ctx.Snapshot()) && (r.Ok? <==> old(ctx.model).Some?)
    {
      var run := RunCallbacks(cfg.decorators, ctx, DecoratorStatus);
      if run.Err? {
        return Err(run.error);
      }
      if ctx.model.None? {
        return Err(NoModel);
      }
      return Ok(ctx.model.value);
    }

    /** The end every single-resource handler shares: the decorators run,
        the model is rendered with its relationships preloaded, the response
        is the resource under the request's own path (or, for a relationship
        request, the document of relationship `rel`) with status 200, and the
        notifiers run. `rendered` is the model the decorators left. */
    method RespondOne(ctx: Context, related: map<string, Render.Related>, rel: Option<string>) returns (r: Outcome<()>, ghost rendered: Doc)
      modifies ctx
      ensures ctx.Snapshot() == old(ctx.Snapshot()).(filters := ctx.filters, model := ctx.model, response := ctx.response, code := ctx.code)
      ensures old(ctx.filters) <= ctx.filters
      ensures r.Ok? && cfg.decorators == [] ==> old(ctx.model) == Some(rendered)
      ensures r.Ok? ==>
        var res := ResourceFor(cfg.meta, ctx.readable, ctx.request.prefix, related, rendered);
        && res.Ok?
        && ctx.response == (if rel.Some? then RelationshipDoc(res.value, rel.value)
                            else Some(Document(Some(One(Some(res.value))), NoLinks.(self := Self(ctx.request)))))
        && ctx.code == 200
    {
      rendered := Doc(Zero, 0, map[]);
      var d := Decorate(ctx);
      if d.Err? {
        return Err(d.error), rendered;
      }
      var model := d.value;
      rendered := model;
      var res := ResourceForModel(ctx.readable, ctx.request.prefix, related, model);
      if res.Err? {
        return Err(res.error), rendered;
      }
      var response := if rel.Some? then RelationshipDoc(res.value, rel.value)
                      else Some(Document(Some(One(Some(res.value))), NoLinks.(self := Self(ctx.request))));
      r := Respond(ctx, response, 200);
    }

    /** controller.go:369-400: the page of matching documents, rendered with
        their relationships preloaded together, with the listing's links.
        `loaded` is the query the page was read with and `counted` the one
        the links count, which the decorators may have narrowed further;
        `rs` are the rendered resources. */
    method ListResources(ctx: Context, store: Manager, related: map<string, Render.Related>)
      returns (r: Outcome<()>, ghost loaded: Query, ghost counted: Query, ghost rs: seq<Resource>)
      requires store.Valid()
      modifies ctx, store
      ensures ctx.Keeps(old(ctx.Snapshot()))
      ensures store.Valid() && store.docs == old(store.docs)
      ensures ctx.Snapshot() == old(ctx.Snapshot()).(request := ctx.request, selector := ctx.selector, filters := ctx.filters,
                                                    sorting := ctx.sorting, model := ctx.model, models := ctx.models,
                                                    response := ctx.response, code := ctx.code)
      ensures var fs := old(ctx.request).filters;
        (exists k :: k in fs && ListQuery.CompileFilter(cfg.meta, cfg.filters, k, fs[k]).Err?) ==> r.Err?
      ensures var ss := old(ctx.request).sorting;
        (exists i :: 0 <= i < |ss| && ListQuery.SortKey(cfg.meta, cfg.sorters, ss[i]).Err?) ==> r.Err?
      ensures r.Ok? ==>
        var p := ListQuery.ClampPage(cfg.listLimit, ListQuery.Page(old(ctx.request).pageNumber, old(ctx.request).pageSize));
        && ctx.request == old(ctx.request).(pageNumber := p.number, pageSize := p.size)
        && old(ctx.selector) + SoftDeleteCond(cfg) <= loaded <= counted
        && ctx.models == Window(Filter(store.docs, loaded), ListQuery.SkipLimit(p).0, ListQuery.SkipLimit(p).1)
        && Listed(cfg.meta, ctx.readable, ctx.request.prefix, related, ctx.models, rs)
        && ctx.response == Some(Document(Some(Many(rs)), ListQuery.ListLinks(Self(ctx.request), p, |Filter(store.docs, counted)|)))
        && ctx.code == 200
    {
      counted, rs := [], [];
      r, loaded := LoadModels(ctx, store);
      if r.Err? {
        return;
      }
      r, counted, rs := RespondMany(ctx, store, related);
    }

    /** The end of a listing (controller.go:383-399): the decorators run,
        the loaded models are rendered, the response is their resources with
        the listing's links and status 200, and the notifiers run. `counted`
        is the query the links count. */
    method RespondMany(ctx: Context, store: Manager, related: map<string, Render.Related>)
      returns (r: Outcome<()>, ghost counted: Query, ghost rs: seq<Resource>)
      requires store.Valid()
      modifies ctx, store
      ensures store.Valid() && store.docs == old(store.docs)
      ensures ctx.Snapshot() == old(ctx.Snapshot()).(filters := ctx.filters, model := ctx.model, response := ctx.response, code := ctx.code)
      ensures r.Ok? ==>
        && old(ctx.Query()) <= counted
        && Listed(cfg.meta, ctx.readable, ctx.request.prefix, related, ctx.models, rs)
        && ctx.response == Some(Document(Some(Many(rs)), ListQuery.ListLinks(Self(ctx.request),
                               ListQuery.Page(ctx.request.pageNumber, ctx.request.pageSize), |Filter(store.docs, counted)|)))
        && ctx.code == 200
    {
      counted, rs := [], [];
      r := RunCallbacks(cfg.decorators, ctx, DecoratorStatus);
      if r.Err? {
        return;
      }
      assert old(ctx.Query()) <= ctx.Query();
      var res := ResourcesForListing(ctx.readable, ctx.request.prefix, related, ctx.models);
      if res.Err? {
        return Err(res.error), counted, rs;
      }
      rs := res.value;
      var links, count := ListLinks(ctx, store);
      if links.Err? {
        return Err(links.error), counted, rs;
      }
      counted := ctx.Query();
      r := Respond(ctx, Some(Document(Some(Many(res.value)), links.value)), 200);
    }

    /** controller.go:403-437: the requested document, rendered with its
        relationships preloaded. `loaded` is the document read and
        `rendered` the one the decorators left. */
    method FindResource(ctx: Context, store: Manager, related: map<string, Render.Related>)
      returns (r: Outcome<()>, ghost loaded: Doc, ghost rendered: Doc)
      requires store.Valid() && ctx.op == Find
      modifies ctx, store
      ensures ctx.Keeps(old(ctx.Snapshot()))
      ensures store.Valid() && store.docs == old(store.docs)
      ensures ctx.Snapshot() == old(ctx.Snapshot()).(selector := ctx.selector, filters := ctx.filters, model := ctx.model,
                                                    original := ctx.original, response := ctx.response, code := ctx.code)
      ensures FromHex(ctx.request.resourceId).None? ==> r == Err(InvalidObjectId)
      ensures r.Ok? ==>
        && loaded in store.docs
        && FromHex(ctx.request.resourceId) == Some(loaded.id)
        && (SoftDeleteKey(cfg).Some? ==> Get(loaded, SoftDeleteKey(cfg).value) == Null)
        && (cfg.decorators == [] ==> rendered == loaded)
        && Responded(ctx, related, rendered)
    {
      loaded, rendered := Doc(Zero, 0, map[]), Doc(Zero, 0, map[]);
      ghost var q;
      r, q := LoadModel(ctx, store);
      if r.Err? {
        return;
      }
      loaded := ctx.model.value;
      r, rendered := RespondOne(ctx, related, None);
    }

    /** What assigning the submitted resource `res` to `d` gives under the
        request's writable fields, when every submitted attribute and
        relationship is accepted. */
    ghost function AssignedTo(writable: seq<string>, res: Resource, d: Doc): Option<Doc> {
      var wl := Assign.Whitelist(cfg.meta, writable, "writable");
      if wl.Ok? && Assign.AttributesAccepted(cfg.meta, wl.value, cfg.tolerateViolations, res)
                && Assign.RelationshipsAccepted(cfg.meta, wl.value, cfg.tolerateViolations, res)
      then Some(Assign.Assigned(cfg.meta, wl.value, res, d))
      else None
    }

    /** controller.go:1401-1478 with the controller's settings. */
    method AssignData(writable: seq<string>, res: Resource, d: Doc) returns (r: Outcome<Doc>)
      requires WellFormed(cfg.meta)
      ensures r.Ok? <==> AssignedTo(writable, res, d).Some?
      ensures r.Ok? ==> r.value == AssignedTo(writable, res, d).value
    {
      r := Assign.AssignData(cfg.meta, writable, cfg.tolerateViolations, res, d);
    }

    /** The model Create builds (controller.go:469-483): a model with the
        new id and nothing else, the submitted attributes and relationships
        prepared, the validators run and, under consistent update, its first
        update token. `prepared` is the model before the validators ran. */
    method BuildModel(ctx: Context, res: Resource, env: Env) returns (r: Outcome<Doc>, ghost prepared: Doc)
      requires WellFormed(cfg.meta)
      modifies ctx
      ensures ctx.Snapshot() == old(ctx.Snapshot()).(filters := ctx.filters, model := ctx.model)
      ensures AssignedTo(ctx.writable, res, Doc(env.newId, 0, map[])).None? ==> r.Err?
      ensures r.Ok? ==>
        && Some(prepared) == AssignedTo(ctx.writable, res, Doc(env.newId, 0, map[]))
        && (ConsistentKey(cfg).Some? ==> TokenOf(r.value, ConsistentKey(cfg)) == Hex(env.newToken))
        && (cfg.validators == [] ==> r.value == Tokened(prepared, ConsistentKey(cfg), Hex(env.newToken)))
    {
      prepared := Doc(env.newId, 0, map[]);
      var model := AssignData(ctx.writable, res, Doc(env.newId, 0, map[]));
      if model.Err? {
        return Err(model.error), prepared;
      }
      prepared := model.value;
      ctx.model := Some(model.value);
      var run := RunCallbacks(cfg.validators, ctx, ValidatorStatus);
      if run.Err? {
        return Err(run.error), prepared;
      }
      if ctx.model.None? {
        return Err(NoModel), prepared;
      }
      var d := Tokened(ctx.model.value, ConsistentKey(cfg), Hex(env.newToken));
      ctx.model := Some(d);
      return Ok(d), prepared;
    }

    /** The store write of Create (controller.go:485-516): an insert, or
        under idempotent create an insert that happens only when no document
        holds the submitted token. A failed write leaves the store alone. */
    method CreateWrite(inTx: bool, store: Manager, model: Doc, newId: Id) returns (r: Result<Written, Abort>)
      requires store.Valid()
      modifies store
      ensures store.Valid()
      ensures r == CreateStore(old(store.docs), inTx, IdempotentKey(cfg), model, newId)
      ensures store.docs == (if r.Ok? then r.value.coll else old(store.docs))
      ensures r.Ok? ==> |store.docs| == |old(store.docs)| + 1 && store.docs[..|old(store.docs)|] == old(store.docs)
    {
      if CreateStore(store.docs, inTx, IdempotentKey(cfg), model, newId).Ok? {
        CreateAppends(store.docs, inTx, IdempotentKey(cfg), model, newId);
      }
      var key := IdempotentKey(cfg);
      if key.Some? {
        var t := Token(model, key.value);
        if t == "" {
          return Err(MissingCreateToken);
        }
        var ins := store.InsertIfMissing(inTx, CreateQuery(key.value, t), model, newId);
        if ins.Err? {
          return Err(StoreAbort(ins.error));
        }
        if !ins.value.0 {
          return Err(ExistingCreateToken);
        }
        return Ok(Written(store.docs, ins.value.1));
      }
      var d := store.Insert(model, newId);
      if d.Err? {
        return Err(StoreAbort(d.error));
      }
      return Ok(Written(store.docs, d.value));
    }

    /** controller.go:439-534: checks the submitted resource, runs the
        authorizers, builds and inserts the model and responds with it,
        rendered without preloading, under the path of the new resource.
        `submitted` is the model given to the store, `written` the write that
        went through and `rendered` the model the decorators left. */
    method CreateResource(ctx: Context, store: Manager, env: Env)
      returns (r: Outcome<()>, ghost submitted: Doc, ghost written: Option<Written>, ghost rendered: Doc)
      requires WellFormed(cfg.meta) && store.Valid()
      modifies ctx, store
      ensures ctx.Keeps(old(ctx.Snapshot()))
      ensures store.Valid()
      ensures var res := CheckedResource(old(ctx.body), old(ctx.request), true);
        res.Err? ==> r == Err(res.error) && ctx.Snapshot() == old(ctx.Snapshot())
      ensures written.None? ==> store.docs == old(store.docs) && r.Err?
      ensures written.Some? ==>
        && CreateStore(old(store.docs), ctx.inTx, IdempotentKey(cfg), submitted, env.newId) == Ok(written.value)
        && store.docs == written.value.coll
        && |store.docs| == |old(store.docs)| + 1 && store.docs[..|old(store.docs)|] == old(store.docs)
        && (ConsistentKey(cfg).Some? ==> TokenOf(submitted, ConsistentKey(cfg)) == Hex(env.newToken))
      ensures r.Ok? ==>
        var res := Render.Construct(cfg.meta, ctx.readable, ctx.request.prefix, rendered, None);
        && (cfg.decorators == [] ==> rendered == written.value.model)
        && res.Ok?
        && ctx.response == Some(Document(Some(One(Some(res.value))), NoLinks.(self := Self(ctx.request) + "/" + Hex(rendered.id))))
        && ctx.code == 201
    {
      submitted, written, rendered := Doc(Zero, 0, map[]), None, Doc(Zero, 0, map[]);
      var res := CheckedResource(ctx.body, ctx.request, true);
      if res.Err? {
        return Err(res.error), submitted, written, rendered;
      }
      r := RunCallbacks(cfg.authorizers, ctx, AuthorizerStatus);
      if r.Err? {
        return;
      }
      var w;
      w, submitted := InsertModel(ctx, store, res.value, env);
      if w.Err? {
        return Err(w.error), submitted, written, rendered;
      }
      written := Some(w.value);
      var d := Decorate(ctx);
      if d.Err? {
        return Err(d.error), submitted, written, rendered;
      }
      var out := d.value;
      rendered := out;
      var one := Render.Construct(cfg.meta, ctx.readable, ctx.request.prefix, out, None);
      if one.Err? {
        return Err(one.error), submitted, written, rendered;
      }
      r := Respond(ctx, Some(Document(Some(One(Some(one.value))), NoLinks.(self := Self(ctx.request) + "/" + Hex(out.id)))), 201);
    }

    /** Create's model built and inserted (controller.go:466-516); the
        context keeps the model as written. `submitted` is the model given
        to the store. */
    method InsertModel(ctx: Context, store: Manager, res: Resource, env: Env) returns (r: Outcome<Written>, ghost submitted: Doc)
      requires WellFormed(cfg.meta) && store.Valid()
      modifies ctx, store
      ensures store.Valid()
      ensures ctx.Snapshot() == old(ctx.Snapshot()).(filters := ctx.filters, model := ctx.model)
      ensures r.Err? ==> store.docs == old(store.docs)
      ensures r.Ok? ==>
        && CreateStore(old(store.docs), ctx.inTx, IdempotentKey(cfg), submitted, env.newId) == r
        && store.docs == r.value.coll
        && |store.docs| == |old(store.docs)| + 1 && store.docs[..|old(store.docs)|] == old(store.docs)
        && (ConsistentKey(cfg).Some? ==> TokenOf(submitted, ConsistentKey(cfg)) == Hex(env.newToken))
        && ctx.model == Some(r.value.model)
    {
      submitted := Doc(Zero, 0, map[]);
      var model;
      ghost var prepared;
      model, prepared := BuildModel(ctx, res, env);
      if model.Err? {
        return Err(model.error), submitted;
      }
      submitted := model.value;
      r := CreateWrite(ctx.inTx, store, model.value, env.newId);
      if r.Ok? {
        ctx.model := Some(r.value.model);
      }
    }

    /** Update's handling of the loaded model (controller.go:563-594): the
        stored idempotent-create token is remembered, the update token
        emptied, the submitted attributes and relationships prepared, a
        changed idempotent-create token refused and the validators run.
        `prepared` is the model before the validators ran. */
    method Reassign(ctx: Context, res: Resource) returns (r: Outcome<Doc>, ghost prepared: Doc)
      requires WellFormed(cfg.meta) && ctx.model.Some?
      modifies ctx
      ensures ctx.Snapshot() == old(ctx.Snapshot()).(filters := ctx.filters, model := ctx.model)
      ensures var loaded := old(ctx.model).value;
        var a := AssignedTo(ctx.writable, res, Tokened(loaded, ConsistentKey(cfg), ""));
        && (a.None? ==> r.Err?)
        && (a.Some? && TokenOf(a.value, IdempotentKey(cfg)) != TokenOf(loaded, IdempotentKey(cfg)) ==> r == Err(ChangedCreateToken))
        && (r.Ok? ==> a == Some(prepared) && TokenOf(prepared, IdempotentKey(cfg)) == TokenOf(loaded, IdempotentKey(cfg)))
      ensures r.Ok? ==> ctx.model == Some(r.value) && (cfg.validators == [] ==> r.value == prepared)
    {
      var loaded := ctx.model.value;
      prepared := loaded;
      var stored := TokenOf(loaded, IdempotentKey(cfg));
      var model := AssignData(ctx.writable, res, Tokened(loaded, ConsistentKey(cfg), ""));
      if model.Err? {
        return Err(model.error), prepared;
      }
      prepared := model.value;
      ctx.model := Some(model.value);
      if TokenOf(model.value, IdempotentKey(cfg)) != stored {
        return Err(ChangedCreateToken), prepared;
      }
      var run := RunCallbacks(cfg.validators, ctx, ValidatorStatus);
      if run.Err? {
        return Err(run.error), prepared;
      }
      if ctx.model.None? {
        return Err(NoModel), prepared;
      }
      return Ok(ctx.model.value), prepared;
    }

    /** The store write of Update (controller.go:596-631): a replace, or
        under consistent update a compare-and-swap on the token the model was
        loaded with. A failed write leaves the store alone. */
    method UpdateWrite(inTx: bool, store: Manager, model: Doc, stored: string, nextToken: Id) returns (r: Result<Written, Abort>)
      requires store.Valid()
      modifies store
      ensures store.Valid()
      ensures r == UpdateStore(old(store.docs), inTx, ConsistentKey(cfg), model, stored, nextToken)
      ensures store.docs == (if r.Ok? then r.value.coll else old(store.docs))
    {
      var key := ConsistentKey(cfg);
      if key.Some? {
        var t := Token(model, key.value);
        if t != stored {
          return Err(InvalidUpdateToken);
        }
        var next := WithToken(model, key.value, Hex(nextToken));
        var rep := store.ReplaceFirst(inTx, [IdIs(model.id), FieldIs(key.value, Str(t))], next, false);
        if rep.Err? {
          return Err(StoreAbort(rep.error));
        }
        if !rep.value.0 {
          return Err(StaleUpdateToken);
        }
        return Ok(Written(store.docs, rep.value.1));
      }
      var rep := store.Replace(inTx, model, false);
      if rep.Err? {
        return Err(StoreAbort(rep.error));
      }
      return Ok(Written(store.docs, rep.value.1));
    }

    /** controller.go:536-652: checks the submitted resource, loads and
        locks the document, then writes it back reassigned and responds with
        it. `loaded` is the document read, `locked` the collection after the
        lock, `submitted` the model given to the store, `written` the write
        that went through and `rendered` the model the decorators left. */
    method UpdateResource(ctx: Context, store: Manager, related: map<string, Render.Related>, env: Env)
      returns (r: Outcome<()>, ghost loaded: Doc, ghost locked: Collection, ghost submitted: Doc, ghost written: Option<Written>, ghost rendered: Doc)
      requires WellFormed(cfg.meta) && store.Valid() && ctx.op == Update
      modifies ctx, store
      ensures ctx.Keeps(old(ctx.Snapshot()))
      ensures store.Valid() && Ids(store.docs) == Ids(old(store.docs))
      ensures var res := CheckedResource(old(ctx.body), old(ctx.request), false);
        res.Err? ==> r == Err(res.error) && ctx.Snapshot() == old(ctx.Snapshot()) && store.docs == old(store.docs)
      ensures written.Some? ==>
        && UpdateStore(locked, ctx.inTx, ConsistentKey(cfg), submitted, TokenOf(loaded, ConsistentKey(cfg)), env.newToken) == Ok(written.value)
        && store.docs == written.value.coll
      ensures r.Ok? ==>
        && loaded in locked && Ids(locked) == Ids(old(store.docs))
        && FromHex(ctx.request.resourceId) == Some(loaded.id)
        && (SoftDeleteKey(cfg).Some? ==> Get(loaded, SoftDeleteKey(cfg).value) == Null)
        && written.Some?
        && (cfg.validators == [] ==> TokenOf(submitted, IdempotentKey(cfg)) == TokenOf(loaded, IdempotentKey(cfg)))
        && (cfg.decorators == [] ==> rendered == written.value.model)
        && Responded(ctx, related, rendered)
    {
      loaded, locked, submitted, written, rendered := Doc(Zero, 0, map[]), store.docs, Doc(Zero, 0, map[]), None, Doc(Zero, 0, map[]);
      var res := CheckedResource(ctx.body, ctx.request, false);
      if res.Err? {
        return Err(res.error), loaded, locked, submitted, written, rendered;
      }
      ghost var q;
      r, q := LoadModel(ctx, store);
      if r.Err? {
        return;
      }
      loaded, locked := ctx.model.value, store.docs;
      r, submitted, written, rendered := WriteBack(ctx, store, res.value, related, env);
    }

    /** The part of Update after the load (controller.go:565-651): the
        loaded model written back and rendered. */
    method WriteBack(ctx: Context, store: Manager, res: Resource, related: map<string, Render.Related>, env: Env)
      returns (r: Outcome<()>, ghost submitted: Doc, ghost written: Option<Written>, ghost rendered: Doc)
      requires WellFormed(cfg.meta) && store.Valid() && ctx.model.Some?
      modifies ctx, store
      ensures store.Valid() && Ids(store.docs) == Ids(old(store.docs))
      ensures ctx.Snapshot() == old(ctx.Snapshot()).(filters := ctx.filters, model := ctx.model, response := ctx.response, code := ctx.code)
      ensures written.Some? ==>
        var loaded := old(ctx.model).value;
        && UpdateStore(old(store.docs), ctx.inTx, ConsistentKey(cfg), submitted, TokenOf(loaded, ConsistentKey(cfg)), env.newToken) == Ok(written.value)
        && store.docs == written.value.coll
      ensures r.Ok? ==>
        && written.Some?
        && (cfg.validators == [] ==> TokenOf(submitted, IdempotentKey(cfg)) == TokenOf(old(ctx.model).value, IdempotentKey(cfg)))
        && (cfg.decorators == [] ==> rendered == written.value.model)
        && Responded(ctx, related, rendered)
    {
      written, rendered := None, Doc(Zero, 0, map[]);
      var w;
      w, submitted := Rewrite(ctx, store, res, env);
      if w.Err? {
        return Err(w.error), submitted, written, rendered;
      }
      written := Some(w.value);
      r, rendered := RespondOne(ctx, related, None);
    }

    /** The write of Update (controller.go:565-634): the loaded model
        reassigned and written back under the update token it was loaded
        with; the context keeps the model as written. `submitted` is the
        model given to the store. */
    method Rewrite(ctx: Context, store: Manager, res: Resource, env: Env) returns (r: Outcome<Written>, ghost submitted: Doc)
      requires WellFormed(cfg.meta) && store.Valid() && ctx.model.Some?
      modifies ctx, store
      ensures store.Valid() && Ids(store.docs) == Ids(old(store.docs))
      ensures ctx.Snapshot() == old(ctx.Snapshot()).(filters := ctx.filters, model := ctx.model)
      ensures r.Err? ==> store.docs == old(store.docs)
      ensures r.Ok? ==>
        var loaded := old(ctx.model).value;
        && UpdateStore(old(store.docs), ctx.inTx, ConsistentKey(cfg), submitted, TokenOf(loaded, ConsistentKey(cfg)), env.newToken) == r
        && store.docs == r.value.coll
        && (cfg.validators == [] ==> TokenOf(submitted, IdempotentKey(cfg)) == TokenOf(loaded, IdempotentKey(cfg)))
        && ctx.model == Some(r.value.model)
    {
      submitted := Doc(Zero, 0, map[]);
      ghost var loaded := ctx.model.value;
      var stored := TokenOf(ctx.model.value, ConsistentKey(cfg));
      var model;
      ghost var prepared;
      model, prepared := Reassign(ctx, res);
      if model.Err? {
        return Err(model.error), submitted;
      }
      submitted := model.value;
      assert cfg.validators == [] ==> TokenOf(submitted, IdempotentKey(cfg)) == TokenOf(loaded, IdempotentKey(cfg));
      r := UpdateWrite(ctx.inTx, store, model.value, stored, env.newToken);
      if r.Ok? {
        UpdateKeepsIds(old(store.docs), ctx.inTx, ConsistentKey(cfg), submitted, stored, env.newToken);
        ctx.model := Some(r.value.model);
      }
    }

    /** The store Delete leaves: the document stamped with the deletion time
        under soft delete, otherwise removed. */
    function DeleteWritten(docs: Collection, inTx: bool, id: Id, now: Time): Collection {
      match SoftDeleteKey(cfg)
      case Some(key) => UpdateStep(docs, inTx, id, map[key := Stamp(now)], false).coll
      case None => DeleteStep(docs, id).coll
    }

    /** The store write of Delete (controller.go:672-688): under soft delete
        the document is stamped with the deletion time and stays, otherwise
        it is removed. Neither store call can fail here: the update does not
        lock and a delete by id has no precondition. */
    method DeleteWrite(inTx: bool, store: Manager, id: Id, now: Time)
      requires store.Valid()
      modifies store
      ensures store.Valid()
      ensures SoftDeleteKey(cfg).None? ==> store.docs == DeleteStep(old(store.docs), id).coll && Ids(store.docs) == Ids(old(store.docs)) - {id}
      ensures SoftDeleteKey(cfg).Some? ==>
        && store.docs == UpdateStep(old(store.docs), inTx, id, map[SoftDeleteKey(cfg).value := Stamp(now)], false).coll
        && Ids(store.docs) == Ids(old(store.docs)) && |store.docs| == |old(store.docs)|
        && forall d :: d in store.docs && d.id == id ==> Get(d, SoftDeleteKey(cfg).value) == Stamp(now)
    {
      var key := SoftDeleteKey(cfg);
      if key.Some? {
        StampedDelete(store.docs, inTx, id, key.value, now);
        var updated := store.Update(inTx, id, map[key.value := Stamp(now)], false);
      } else {
        var deleted := store.Delete(id);
      }
    }

    /** controller.go:654-695: loads and locks the document, runs the
        validators and deletes the model they leave, softly when soft delete
        is on. The response has no document and status 204. `target` is the
        id deleted. */
    method DeleteResource(ctx: Context, store: Manager, env: Env) returns (r: Outcome<()>, ghost locked: Collection, ghost target: Id)
      requires store.Valid() && ctx.op == Delete
      modifies ctx, store
      ensures ctx.Keeps(old(ctx.Snapshot()))
      ensures store.Valid()
      ensures ctx.Snapshot() == old(ctx.Snapshot()).(selector := ctx.selector, filters := ctx.filters, model := ctx.model,
                                                    original := ctx.original, code := ctx.code)
      ensures FromHex(ctx.request.resourceId).None? ==> r == Err(InvalidObjectId) && store.docs == old(store.docs)
      ensures r.Ok? ==>
        && (cfg.validators == [] ==> FromHex(ctx.request.resourceId) == Some(target) && target in Ids(old(store.docs)))
        && Ids(locked) == Ids(old(store.docs))
        && store.docs == DeleteWritten(locked, ctx.inTx, target, env.now)
        && (SoftDeleteKey(cfg).None? ==> Ids(store.docs) == Ids(old(store.docs)) - {target})
        && (SoftDeleteKey(cfg).Some? ==>
              && Ids(store.docs) == Ids(old(store.docs))
              && forall d :: d in store.docs && d.id == target ==> Get(d, SoftDeleteKey(cfg).value) == Stamp(env.now))
        && ctx.code == 204
    {
      locked, target := store.docs, Zero;
      ghost var q;
      r, q := LoadModel(ctx, store);
      if r.Err? {
        return;
      }
      locked := store.docs;
      r, target := DeleteModel(ctx, store, env);
    }

    /** The part of Delete after the load (controller.go:668-694). */
    method DeleteModel(ctx: Context, store: Manager, env: Env) returns (r: Outcome<()>, ghost target: Id)
      requires store.Valid() && ctx.model.Some?
      modifies ctx, store
      ensures store.Valid()
      ensures ctx.Snapshot() == old(ctx.Snapshot()).(filters := ctx.filters, model := ctx.model, code := ctx.code)
      ensures r.Ok? ==>
        && (cfg.validators == [] ==> target == old(ctx.model).value.id)
        && store.docs == DeleteWritten(old(store.docs), ctx.inTx, target, env.now)
        && (SoftDeleteKey(cfg).None? ==> Ids(store.docs) == Ids(old(store.docs)) - {target})
        && (SoftDeleteKey(cfg).Some? ==>
              && Ids(store.docs) == Ids(old(store.docs))
              && forall d :: d in store.docs && d.id == target ==> Get(d, SoftDeleteKey(cfg).value) == Stamp(env.now))
        && ctx.code == 204
    {
      target := Zero;
      r := RunCallbacks(cfg.validators, ctx, ValidatorStatus);
      if r.Err? {
        return;
      }
      if ctx.model.None? {
        return Err(NoModel), target;
      }
      var id := ctx.model.value.id;
      target := id;
      DeleteWrite(ctx.inTx, store, id, env.now);
      r := RunCallbacks(cfg.notifiers, ctx, NotifierStatus);
      ctx.code := 204;
    }

    /** The context responds with the document of relationship `f` of `d`:
        its data and its links under the resource's own path, status 200. */
    ghost predicate RelResponded(ctx: Context, related: map<string, Render.Related>, f: Field, d: Doc)
      reads ctx
    {
      var pre := Render.Preload(cfg.meta, ctx.readable, related, [d]);
      && pre.Ok?
      && Render.RelData(f, d, Some(pre.value)).Ok?
      && ctx.response == Some(Document(Some(Render.RelData(f, d, Some(pre.value)).value),
                                       Render.RelLinks(Render.BaseLink(ctx.request.prefix, cfg.meta.plural, d.id), f.relName)))
      && ctx.code == 200
    }

    /** The context responds with the document of relationship `rel` picked
        from `d` rendered with its relationships preloaded, status 200. */
    ghost predicate RelPicked(ctx: Context, related: map<string, Render.Related>, rel: string, d: Doc)
      reads ctx
    {
      var res := ResourceFor(cfg.meta, ctx.readable, ctx.request.prefix, related, d);
      res.Ok? && ctx.response == RelationshipDoc(res.value, rel) && ctx.code == 200
    }

    /** The end the relationship handlers share: the model rendered and the
        document of relationship `f` picked from it; a relationship the
        request may not read is missing from the resource and the response
        is then empty. */
    method RespondRelationship(ctx: Context, related: map<string, Render.Related>, f: Field) returns (r: Outcome<()>, ghost rendered: Doc)
      requires WellFormed(cfg.meta) && f in cfg.meta.fields && f.IsRelationship()
      modifies ctx
      ensures ctx.Snapshot() == old(ctx.Snapshot()).(filters := ctx.filters, model := ctx.model, response := ctx.response, code := ctx.code)
      ensures r.Ok? && cfg.decorators == [] ==> old(ctx.model) == Some(rendered)
      ensures r.Ok? ==> RelPicked(ctx, related, f.relName, rendered)
      ensures r.Ok? && f.name in ctx.readable ==> RelResponded(ctx, related, f, rendered)
    {
      r, rendered := RespondOne(ctx, related, Some(f.relName));
      if r.Ok? && f.name in ctx.readable {
        RelationshipResponse(cfg.meta, ctx.readable, ctx.request.prefix, related, rendered, f);
      }
    }

    /** controller.go:863-904: the document of one relationship of the
        requested document, when the request may read it. */
    method GetRelationship(ctx: Context, store: Manager, related: map<string, Render.Related>)
      returns (r: Outcome<()>, ghost loaded: Doc, ghost rendered: Doc)
      requires WellFormed(cfg.meta) && store.Valid() && ctx.op == Find
      modifies ctx, store
      ensures ctx.Keeps(old(ctx.Snapshot()))
      ensures store.Valid() && store.docs == old(store.docs)
      ensures RelationshipNamed(cfg.meta, ctx.request.relationship).None? ==> r == Err(InvalidRelationship) && ctx.Snapshot() == old(ctx.Snapshot())
      ensures var f := RelationshipNamed(cfg.meta, ctx.request.relationship);
        f.Some? && FromHex(ctx.request.resourceId).Some? && f.value.name !in ctx.readable ==> r.Err?
      ensures r.Ok? ==>
        var f := RelationshipNamed(cfg.meta, ctx.request.relationship);
        && f.Some? && f.value.name in ctx.readable
        && loaded in store.docs
        && FromHex(ctx.request.resourceId) == Some(loaded.id)
        && (cfg.decorators == [] ==> rendered == loaded)
        && RelResponded(ctx, related, f.value, rendered)
    {
      loaded, rendered := Doc(Zero, 0, map[]), Doc(Zero, 0, map[]);
      var f := RelationshipNamed(cfg.meta, ctx.request.relationship);
      if f.None? {
        return Err(InvalidRelationship), loaded, rendered;
      }
      ghost var q;
      r, q := LoadModel(ctx, store);
      if r.Err? {
        return;
      }
      loaded := ctx.model.value;
      if f.value.name !in ctx.readable {
        return Err(NotReadable), loaded, rendered;
      }
      r, rendered := RespondRelationship(ctx, related, f.value);
    }

    /** The checks that open the relationship updates (controller.go:918-935,
        978-999 and 1062-1083): partial updates are refused under consistent
        update, the relationship must exist and be stored on the model (a
        to-many one when `toMany`), the document is loaded and locked, and
        the request must be allowed to write the relationship. */
    method OpenRelationship(ctx: Context, store: Manager, toMany: bool) returns (r: Outcome<Field>)
      requires store.Valid()
      modifies ctx, store
      ensures store.Valid() && Ids(store.docs) == Ids(old(store.docs))
      ensures r.Err? ==> store.docs == old(store.docs) || ctx.op.Write()
      ensures ctx.Snapshot() == old(ctx.Snapshot()).(selector := ctx.selector, filters := ctx.filters,
                                                    model := ctx.model, original := ctx.original)
      ensures cfg.consistentUpdate ==> r == Err(PartialUpdate) && ctx.Snapshot() == old(ctx.Snapshot()) && store.docs == old(store.docs)
      ensures var f := RelationshipNamed(cfg.meta, ctx.request.relationship);
        !cfg.consistentUpdate && (f.None? || !(if toMany then f.value.card.ToMany? else f.value.card.Stored())) ==>
          r == Err(InvalidRelationship) && store.docs == old(store.docs)
      ensures r.Ok? ==>
        && Some(r.value) == RelationshipNamed(cfg.meta, ctx.request.relationship)
        && (if toMany then r.value.card.ToMany? else r.value.card.Stored())
        && r.value.name in ctx.writable
        && ctx.model.Some? && ctx.model.value in store.docs
        && FromHex(ctx.request.resourceId) == Some(ctx.model.value.id)
        && (SoftDeleteKey(cfg).Some? ==> Get(ctx.model.value, SoftDeleteKey(cfg).value) == Null)
    {
      if cfg.consistentUpdate {
        return Err(PartialUpdate);
      }
      var f := RelationshipNamed(cfg.meta, ctx.request.relationship);
      if f.None? || !(if toMany then f.value.card.ToMany? else f.value.card.Stored()) {
        return Err(InvalidRelationship);
      }
      var loaded;
      ghost var q;
      loaded, q := LoadModel(ctx, store);
      if loaded.Err? {
        return Err(loaded.error);
      }
      if f.value.name !in ctx.writable {
        return Err(NotWritable);
      }
      return Ok(f.value);
    }

    /** The write the relationship updates share (controller.go:940-948):
        the validators run and the model they leave replaces its document.
        `submitted` is that model. */
    method SaveModel(ctx: Context, store: Manager) returns (r: Outcome<()>, ghost submitted: Doc)
      requires store.Valid()
      modifies ctx, store
      ensures store.Valid() && Ids(store.docs) == Ids(old(store.docs))
      ensures ctx.Snapshot() == old(ctx.Snapshot()).(filters := ctx.filters, model := ctx.model)
      ensures r.Err? ==> store.docs == old(store.docs)
      ensures r.Ok? ==>
        && (cfg.validators == [] ==> old(ctx.model) == Some(submitted))
        && ReplaceStep(old(store.docs), ctx.inTx, submitted, false) == Reply(store.docs, Ok((submitted.id in Ids(old(store.docs)), submitted)))
        && ctx.model == Some(submitted)
    {
      submitted := Doc(Zero, 0, map[]);
      r := RunCallbacks(cfg.validators, ctx, ValidatorStatus);
      if r.Err? {
        return;
      }
      if ctx.model.None? {
        return Err(NoModel), submitted;
      }
      submitted := ctx.model.value;
      var rep := store.Replace(ctx.inTx, ctx.model.value, false);
      if rep.Err? {
        return Err(StoreAbort(rep.error)), submitted;
      }
      return Ok(()), submitted;
    }

    /** The end the relationship updates share (controller.go:940-964): the
        model written back, then rendered and the relationship's document
        picked from it. */
    method Commit(ctx: Context, store: Manager, related: map<string, Render.Related>, f: Field)
      returns (r: Outcome<()>, ghost submitted: Doc, ghost rendered: Doc)
      requires WellFormed(cfg.meta) && f in cfg.meta.fields && f.IsRelationship() && store.Valid()
      modifies ctx, store
      ensures store.Valid() && Ids(store.docs) == Ids(old(store.docs))
      ensures ctx.Snapshot() == old(ctx.Snapshot()).(filters := ctx.filters, model := ctx.model, response := ctx.response, code := ctx.code)
      ensures r.Ok? ==>
        && (cfg.validators == [] ==> old(ctx.model) == Some(submitted))
        && ReplaceStep(old(store.docs), ctx.inTx, submitted, false) == Reply(store.docs, Ok((submitted.id in Ids(old(store.docs)), submitted)))
        && (cfg.decorators == [] ==> rendered == submitted)
        && RelPicked(ctx, related, f.relName, rendered)
        && (f.name in ctx.readable ==> RelResponded(ctx, related, f, rendered))
    {
      rendered := Doc(Zero, 0, map[]);
      r, submitted := SaveModel(ctx, store);
      if r.Err? {
        return;
      }
      r, rendered := RespondRelationship(ctx, related, f);
    }

    /** controller.go:906-965: a to-one or to-many relationship replaced
        with the submitted references. `loaded` is the document read,
        `edited` the model with the relationship replaced and `submitted`
        the model written. */
    method SetRelationship(ctx: Context, store: Manager, related: map<string, Render.Related>)
      returns (r: Outcome<()>, ghost loaded: Doc, ghost locked: Collection, ghost edited: Doc, ghost submitted: Doc, ghost rendered: Doc)
      requires WellFormed(cfg.meta) && store.Valid()
      modifies ctx, store
      ensures ctx.Keeps(old(ctx.Snapshot()))
      ensures store.Valid() && Ids(store.docs) == Ids(old(store.docs))
      ensures cfg.consistentUpdate ==> r == Err(PartialUpdate) && store.docs == old(store.docs)
      ensures var f := RelationshipNamed(cfg.meta, ctx.request.relationship);
        !cfg.consistentUpdate && (f.None? || !f.value.card.Stored()) ==> r == Err(InvalidRelationship) && store.docs == old(store.docs)
      ensures r.Ok? ==>
        var f := RelationshipNamed(cfg.meta, ctx.request.relationship);
        && f.Some? && f.value.card.Stored() && f.value.name in ctx.writable
        && FromHex(ctx.request.resourceId) == Some(loaded.id)
        && Assign.RelValue(f.value, BodyDocument(ctx.body)) == Ok(Get(edited, f.value.bson))
        && edited == Set(loaded, f.value.bson, Get(edited, f.value.bson))
        && loaded in locked && Ids(locked) == Ids(old(store.docs))
        && (cfg.validators == [] ==> submitted == edited)
        && ReplaceStep(locked, ctx.inTx, submitted, false) == Reply(store.docs, Ok((submitted.id in Ids(locked), submitted)))
        && (cfg.decorators == [] ==> rendered == submitted)
        && RelPicked(ctx, related, f.value.relName, rendered)
    {
      loaded, locked, edited, submitted, rendered := Doc(Zero, 0, map[]), store.docs, Doc(Zero, 0, map[]), Doc(Zero, 0, map[]), Doc(Zero, 0, map[]);
      var f := OpenRelationship(ctx, store, false);
      if f.Err? {
        return Err(f.error), loaded, locked, edited, submitted, rendered;
      }
      loaded, locked := ctx.model.value, store.docs;
      var model := Assign.AssignRelationship(f.value, BodyDocument(ctx.body), ctx.model.value);
      if model.Err? {
        return Err(model.error), loaded, locked, edited, submitted, rendered;
      }
      edited := model.value;
      ctx.model := Some(model.value);
      r, submitted, rendered := Commit(ctx, store, related, f.value);
    }

    /** The references a to-many update submits (controller.go:999,
        1083): a request without a document or without data makes the
        source dereference nil, reported here as `MissingData`. */
    static method SubmittedRefs(body: Option<Document>) returns (r: Outcome<seq<Resource>>)
      ensures r.Err? <==> body.None? || body.value.data.None?
      ensures r.Err? ==> r.error == MissingData
      ensures r.Ok? ==> r.value == Assign.ManyRefs(body.value)
    {
      if body.None? || body.value.data.None? {
        return Err(MissingData);
      }
      return Ok(Assign.ManyRefs(body.value));
    }

    /** The ids of a to-many relationship of the model edited by the
        submitted references (controller.go:999-1022, 1083-1113): added
        when not `remove`, removed otherwise. */
    static method EditIds(ctx: Context, f: Field, remove: bool) returns (r: Outcome<()>)
      requires ctx.model.Some?
      modifies ctx
      ensures ctx.Snapshot() == old(ctx.Snapshot()).(model := ctx.model)
      ensures r.Err? ==> ctx.model == old(ctx.model)
      ensures r.Ok? ==>
        && ctx.body.Some? && ctx.body.value.data.Some?
        && var ids := (if remove then ToMany.Remove else ToMany.Append)(StoredIds(old(ctx.model.value), f.bson), Assign.ManyRefs(ctx.body.value), f.relType);
           ids.Ok? && ctx.model == Some(Edited(old(ctx.model.value), f.bson, ids.value))
    {
      var refs := SubmittedRefs(ctx.body);
      if refs.Err? {
        return Err(refs.error);
      }
      var ids;
      if remove {
        ids := ToMany.RemoveFromMany(StoredIds(ctx.model.value, f.bson), refs.value, f.relType);
      } else {
        ids := ToMany.AppendToMany(StoredIds(ctx.model.value, f.bson), refs.value, f.relType);
      }
      if ids.Err? {
        return Err(ids.error);
      }
      ctx.model := Some(Edited(ctx.model.value, f.bson, ids.value));
      return Ok(());
    }

    /** The end the to-many updates share (controller.go:1024-1048,
        1083-1139): the ids edited, then the model written back and its
        relationship rendered. `edited` is the model with the new ids. */
    method CommitIds(ctx: Context, store: Manager, related: map<string, Render.Related>, f: Field, remove: bool)
      returns (r: Outcome<()>, ghost edited: Doc, ghost submitted: Doc, ghost rendered: Doc)
      requires WellFormed(cfg.meta) && f in cfg.meta.fields && f.IsRelationship() && store.Valid() && ctx.model.Some?
      modifies ctx, store
      ensures store.Valid() && Ids(store.docs) == Ids(old(store.docs))
      ensures ctx.Snapshot() == old(ctx.Snapshot()).(filters := ctx.filters, model := ctx.model, response := ctx.response, code := ctx.code)
      ensures r.Ok? ==>
        && ctx.body.Some? && ctx.body.value.data.Some?
        && (var ids := (if remove then ToMany.Remove else ToMany.Append)(StoredIds(old(ctx.model.value), f.bson), Assign.ManyRefs(ctx.body.value), f.relType);
            ids.Ok? && edited == Edited(old(ctx.model.value), f.bson, ids.value))
        && (cfg.validators == [] ==> submitted == edited)
        && ReplaceStep(old(store.docs), ctx.inTx, submitted, false) == Reply(store.docs, Ok((submitted.id in Ids(old(store.docs)), submitted)))
        && (cfg.decorators == [] ==> rendered == submitted)
        && RelPicked(ctx, related, f.relName, rendered)
    {
      edited, submitted, rendered := Doc(Zero, 0, map[]), Doc(Zero, 0, map[]), Doc(Zero, 0, map[]);
      r := EditIds(ctx, f, remove);
      if r.Err? {
        return;
      }
      edited := ctx.model.value;
      r, submitted, rendered := Commit(ctx, store, related, f);
    }

    /** controller.go:967-1049: the submitted references added to a to-many
        relationship, each id that is not yet present once and at the end.
        `loaded` is the document read, `edited` the model with the new ids
        and `submitted` the model written. */
    method AppendToRelationship(ctx: Context, store: Manager, related: map<string, Render.Related>)
      returns (r: Outcome<()>, ghost loaded: Doc, ghost locked: Collection, ghost edited: Doc, ghost submitted: Doc, ghost rendered: Doc)
      requires WellFormed(cfg.meta) && store.Valid()
      modifies ctx, store
      ensures ctx.Keeps(old(ctx.Snapshot()))
      ensures store.Valid() && Ids(store.docs) == Ids(old(store.docs))
      ensures cfg.consistentUpdate ==> r == Err(PartialUpdate) && store.docs == old(store.docs)
      ensures var f := RelationshipNamed(cfg.meta, ctx.request.relationship);
        !cfg.consistentUpdate && (f.None? || !f.value.card.ToMany?) ==> r == Err(InvalidRelationship) && store.docs == old(store.docs)
      ensures r.Ok? ==>
        var f := RelationshipNamed(cfg.meta, ctx.request.relationship);
        && f.Some? && f.value.card.ToMany? && f.value.name in ctx.writable
        && FromHex(ctx.request.resourceId) == Some(loaded.id)
        && ctx.body.Some? && ctx.body.value.data.Some?
        && ToMany.Append(StoredIds(loaded, f.value.bson), Assign.ManyRefs(ctx.body.value), f.value.relType) == Ok(StoredIds(edited, f.value.bson))
        && edited == Edited(loaded, f.value.bson, StoredIds(edited, f.value.bson))
        && loaded in locked && Ids(locked) == Ids(old(store.docs))
        && (cfg.validators == [] ==> submitted == edited)
        && ReplaceStep(locked, ctx.inTx, submitted, false) == Reply(store.docs, Ok((submitted.id in Ids(locked), submitted)))
        && (cfg.decorators == [] ==> rendered == submitted)
        && RelPicked(ctx, related, f.value.relName, rendered)
    {
      loaded, locked, edited, submitted, rendered := Doc(Zero, 0, map[]), store.docs, Doc(Zero, 0, map[]), Doc(Zero, 0, map[]), Doc(Zero, 0, map[]);
      var f := OpenRelationship(ctx, store, true);
      if f.Err? {
        return Err(f.error), loaded, locked, edited, submitted, rendered;
      }
      loaded, locked := ctx.model.value, store.docs;
      r, edited, submitted, rendered := CommitIds(ctx, store, related, f.value, false);
    }

    /** controller.go:1051-1140: for every submitted reference the last
        occurrence of its id removed from a to-many relationship; ids that
        are absent are skipped. */
    method RemoveFromRelationship(ctx: Context, store: Manager, related: map<string, Render.Related>)
      returns (r: Outcome<()>, ghost loaded: Doc, ghost locked: Collection, ghost edited: Doc, ghost submitted: Doc, ghost rendered: Doc)
      requires WellFormed(cfg.meta) && store.Valid()
      modifies ctx, store
      ensures ctx.Keeps(old(ctx.Snapshot()))
      ensures store.Valid() && Ids(store.docs) == Ids(old(store.docs))
      ensures cfg.consistentUpdate ==> r == Err(PartialUpdate) && store.docs == old(store.docs)
      ensures var f := RelationshipNamed(cfg.meta, ctx.request.relationship);
        !cfg.consistentUpdate && (f.None? || !f.value.card.ToMany?) ==> r == Err(InvalidRelationship) && store.docs == old(store.docs)
      ensures r.Ok? ==>
        var f := RelationshipNamed(cfg.meta, ctx.request.relationship);
        && f.Some? && f.value.card.ToMany? && f.value.name in ctx.writable
        && FromHex(ctx.request.resourceId) == Some(loaded.id)
        && ctx.body.Some? && ctx.body.value.data.Some?
        && ToMany.Remove(StoredIds(loaded, f.value.bson), Assign.ManyRefs(ctx.body.value), f.value.relType) == Ok(StoredIds(edited, f.value.bson))
        && edited == Edited(loaded, f.value.bson, StoredIds(edited, f.value.bson))
        && loaded in locked && Ids(locked) == Ids(old(store.docs))
        && (cfg.validators == [] ==> submitted == edited)
        && ReplaceStep(locked, ctx.inTx, submitted, false) == Reply(store.docs, Ok((submitted.id in Ids(locked), submitted)))
        && (cfg.decorators == [] ==> rendered == submitted)
        && RelPicked(ctx, related, f.value.relName, rendered)
    {
      loaded, locked, edited, submitted, rendered := Doc(Zero, 0, map[]), store.docs, Doc(Zero, 0, map[]), Doc(Zero, 0, map[]), Doc(Zero, 0, map[]);
      var f := OpenRelationship(ctx, store, true);
      if f.Err? {
        return Err(f.error), loaded, locked, edited, submitted, rendered;
      }
      loaded, locked := ctx.model.value, store.docs;
      r, edited, submitted, rendered := CommitIds(ctx, store, related, f.value, true);
    }

    /** The context of a related listing (controller.go:729-746 and the
        start of `handle`): a List of this model below `parent`, begun with
        `selector` and run in a transaction. */
    method SubContext(parent: Request, selector: Query) returns (r: Outcome<Context>)
      requires Ready()
      ensures r.Ok? ==>
        && fresh(r.value)
        && r.value.request == ChildRequest(parent, cfg.meta.plural)
        && r.value.selector == selector && r.value.filters == [] && r.value.inTx
    {
      var sub := new Context(ChildRequest(parent, cfg.meta.plural), None);
      var begun := Begin(sub, selector);
      if begun.Err? {
        return Err(begun.error);
      }
      sub.inTx := true;
      return Ok(sub);
    }

    /** The sub-request of controller.go:729-847 as this, the related
        controller, runs it: a List of its model in a context of its own,
        restricted to `selector`, over `coll`, in a transaction. `listed`
        are the documents rendered and `count` the number the links count. */
    method ListRelated(parent: Request, coll: Collection, related: map<string, Render.Related>, selector: Query)
      returns (r: Outcome<Document>, code: int, ghost listed: seq<Doc>, ghost count: nat)
      requires Ready() && UniqueIds(coll)
      ensures r.Ok? ==>
        var p := ListQuery.ClampPage(cfg.listLimit, ListQuery.Page(parent.pageNumber, parent.pageSize));
        && code == 200
        && (forall d :: d in listed ==> d in coll && Matches(d, selector))
        && r.value.data.Some? && RelatedData(r.value.data.value, ToMany, cfg.meta.plural, listed)
        && r.value.links == ListQuery.ListLinks(Self(ChildRequest(parent, cfg.meta.plural)), p, count)
    {
      code, listed, count := 0, [], 0;
      var begun := SubContext(parent, selector);
      if begun.Err? {
        return Err(begun.error), code, listed, count;
      }
      var sub := begun.value;
      var subStore := new Manager(coll);
      var listing;
      ghost var loaded, counted, rs;
      listing, loaded, counted, rs := ListResources(sub, subStore, related);
      if listing.Err? {
        return Err(listing.error), code, listed, count;
      }
      listed := sub.models;
      count := |Filter(coll, counted)|;
      WindowMatches(coll, selector, loaded, ListQuery.SkipLimit(ListQuery.ClampPage(cfg.listLimit, ListQuery.Page(parent.pageNumber, parent.pageSize))).0,
                    ListQuery.SkipLimit(ListQuery.ClampPage(cfg.listLimit, ListQuery.Page(parent.pageNumber, parent.pageSize))).1);
      ListedIds(cfg.meta, sub.readable, sub.request.prefix, related, listed, rs);
      assert Self(sub.request) == Self(ChildRequest(parent, cfg.meta.plural));
      return Ok(sub.response.value), sub.code, listed, count;
    }

    /** The data of a related listing as the relationship's cardinality
        wants it (controller.go:772-783, 816-827): a to-one or has-one
        listing of more than one document is an internal error, otherwise
        its one resource or none. */
    static method Collapsed(card: Card, plural: string, data: Hybrid, ghost listed: seq<Doc>) returns (r: Outcome<Hybrid>)
      requires RelatedData(data, ToMany, plural, listed)
      ensures r.Err? <==> (card.ToOne? || card.HasOne?) && |listed| > 1
      ensures r.Err? ==> r.error == (if card.ToOne? then ToOneOverflow else Render.HasOneOverflow)
      ensures r.Ok? ==> RelatedData(r.value, card, plural, listed)
    {
      if !(card.ToOne? || card.HasOne?) {
        return Ok(data);
      }
      r := Collapse(data, if card.ToOne? then ToOneOverflow else Render.HasOneOverflow);
    }

    /** The end of controller.go:697-861 in the requesting controller: the
        related controller `rc` lists its documents matching `selector`,
        a to-one or has-one listing collapses to at most one resource, and
        the response takes the listing's status with its links rewritten to
        the related request's own path. */
    method RespondRelated(ctx: Context, rc: Controller, f: Field, coll: Collection, related: map<string, Render.Related>, selector: Query)
      returns (r: Outcome<()>, ghost listed: seq<Doc>, ghost count: nat)
      requires rc.Ready() && UniqueIds(coll) && rc.cfg.meta.plural == f.relType
      modifies ctx
      ensures ctx.Snapshot() == old(ctx.Snapshot()).(response := ctx.response, code := ctx.code)
      ensures r.Ok? ==>
        && (forall x :: x in listed ==> x in coll && Matches(x, selector))
        && ctx.code == 200
        && ctx.response.Some? && ctx.response.value.data.Some?
        && RelatedData(ctx.response.value.data.value, f.card, f.relType, listed)
        && ctx.response.value.links == ListQuery.ListLinks(Self(ctx.request),
             ListQuery.ClampPage(rc.cfg.listLimit, ListQuery.Page(ctx.request.pageNumber, ctx.request.pageSize)), count)
    {
      var doc, code;
      doc, code, listed, count := rc.ListRelated(ctx.request, coll, related, selector);
      if doc.Err? {
        return Err(doc.error), listed, count;
      }
      var data := Collapsed(f.card, f.relType, doc.value.data.value, listed);
      if data.Err? {
        return Err(data.error), listed, count;
      }
      RelatedLinks(ctx.request, f.relType, ListQuery.ClampPage(rc.cfg.listLimit, ListQuery.Page(ctx.request.pageNumber, ctx.request.pageSize)), count);
      ctx.response := Some(Document(Some(data.value), RewriteLinks(doc.value.links, Self(ChildRequest(ctx.request, f.relType)), Self(ctx.request))));
      ctx.code := code;
      return Ok(()), listed, count;
    }

    /** The related resources of relationship `f` of the model were
        listed: its controller is in the group, `listed` are documents of
        the related collection that the relationship selects (through
        `inverse` for has-one and has-many), and the response renders them
        with the related listing's links and status 200. */
    ghost predicate RelatedListed(ctx: Context, own: Collection, group: map<string, Controller>, colls: map<string, Collection>,
                                  f: Field, newId: Id, inverse: Field, listed: seq<Doc>, count: nat)
      reads ctx
      requires ctx.model.Some? && !f.card.NoRel?
    {
      && f.relType in group
      && (f.card.Virtual() ==> Some(inverse) == RelationshipNamed(group[f.relType].cfg.meta, f.relInverse))
      && (forall x :: x in listed ==>
            && x in (if f.relType == cfg.meta.plural then own else if f.relType in colls then colls[f.relType] else [])
            && Matches(x, RelatedSelector(f, ctx.model.value, inverse, newId)))
      && ctx.code == 200
      && ctx.response.Some? && ctx.response.value.data.Some?
      && RelatedData(ctx.response.value.data.value, f.card, f.relType, listed)
      && ctx.response.value.links == ListQuery.ListLinks(Self(ctx.request),
           ListQuery.ClampPage(group[f.relType].cfg.listLimit, ListQuery.Page(ctx.request.pageNumber, ctx.request.pageSize)), count)
    }

    /** controller.go:697-861: the documents a relationship of the requested
        document refers to, listed by the related model's controller with
        the request's fields, filters, sorting and page. `loaded` is the
        document read. */
    method GetRelatedResources(ctx: Context, store: Manager, group: map<string, Controller>, colls: map<string, Collection>, env: Env)
      returns (r: Outcome<()>, ghost loaded: Doc, ghost inverse: Field, ghost listed: seq<Doc>, ghost count: nat)
      requires Grouped(group, colls) && store.Valid() && !ctx.op.Write()
      modifies ctx, store
      ensures ctx.Keeps(old(ctx.Snapshot()))
      ensures store.Valid() && store.docs == old(store.docs)
      ensures ctx.Snapshot() == old(ctx.Snapshot()).(selector := ctx.selector, filters := ctx.filters, model := ctx.model,
                                                    original := ctx.original, response := ctx.response, code := ctx.code)
      ensures RelationshipNamed(cfg.meta, ctx.request.relatedResource).None? ==> r == Err(InvalidRelationship)
      ensures r.Ok? ==>
        var f := RelationshipNamed(cfg.meta, ctx.request.relatedResource);
        && f.Some? && !f.value.card.NoRel? && f.value.name in ctx.readable
        && ctx.model == Some(loaded) && loaded in store.docs
        && FromHex(ctx.request.resourceId) == Some(loaded.id)
        && RelatedListed(ctx, store.docs, group, colls, f.value, env.newId, inverse, listed, count)
    {
      loaded, inverse, listed, count := Doc(Zero, 0, map[]), Field("", "", "", OtherKind, "", "", "", NoRel), [], 0;
      var f := OpenRelated(ctx, store);
      if f.Err? {
        return Err(f.error), loaded, inverse, listed, count;
      }
      loaded := ctx.model.value;
      r, inverse, listed, count := ListRelatedOf(ctx, store, group, colls, f.value, env);
    }

    /** The checks that open a related listing (controller.go:709-727): the
        relationship must exist, the document is loaded, and the request
        must be allowed to read the relationship. */
    method OpenRelated(ctx: Context, store: Manager) returns (r: Outcome<Field>)
      requires WellFormed(cfg.meta) && store.Valid() && !ctx.op.Write()
      modifies ctx, store
      ensures store.Valid() && store.docs == old(store.docs)
      ensures ctx.Snapshot() == old(ctx.Snapshot()).(selector := ctx.selector, filters := ctx.filters,
                                                    model := ctx.model, original := ctx.original)
      ensures RelationshipNamed(cfg.meta, ctx.request.relatedResource).None? ==> r == Err(InvalidRelationship)
      ensures r.Ok? ==>
        && Some(r.value) == RelationshipNamed(cfg.meta, ctx.request.relatedResource)
        && !r.value.card.NoRel? && r.value.name in ctx.readable
        && ctx.model.Some? && ctx.model.value in store.docs
        && FromHex(ctx.request.resourceId) == Some(ctx.model.value.id)
    {
      var f := RelationshipNamed(cfg.meta, ctx.request.relatedResource);
      if f.None? {
        return Err(InvalidRelationship);
      }
      var found;
      ghost var q;
      found, q := LoadModel(ctx, store);
      if found.Err? {
        return Err(found.error);
      }
      if f.value.name !in ctx.readable {
        return Err(NotReadable);
      }
      return Ok(f.value);
    }

    /** The listing of controller.go:724-861 for relationship `f` of the
        loaded model: the related controller is looked up in the group, and
        for has-one and has-many the inverse relationship on its model. */
    method ListRelatedOf(ctx: Context, store: Manager, group: map<string, Controller>, colls: map<string, Collection>, f: Field, env: Env)
      returns (r: Outcome<()>, ghost inverse: Field, ghost listed: seq<Doc>, ghost count: nat)
      requires Grouped(group, colls) && store.Valid() && ctx.model.Some? && !f.card.NoRel?
      modifies ctx
      ensures ctx.Snapshot() == old(ctx.Snapshot()).(response := ctx.response, code := ctx.code)
      ensures r.Ok? ==> RelatedListed(ctx, store.docs, group, colls, f, env.newId, inverse, listed, count)
    {
      inverse, listed, count := f, [], 0;
      if f.relType !in group {
        return Err(MissingRelated(f.relType)), inverse, listed, count;
      }
      var rc := group[f.relType];
      var inv := f;
      if f.card.Virtual() {
        var named := RelationshipNamed(rc.cfg.meta, f.relInverse);
        if named.None? {
          return Err(MissingInverse(f.relInverse)), inverse, listed, count;
        }
        inv := named.value;
      }
      inverse := inv;
      var coll := if f.relType == cfg.meta.plural then store.docs else colls[f.relType];
      r, listed, count := RespondRelated(ctx, rc, f, coll, RelatedOf(group, colls[cfg.meta.plural := store.docs], f.relType, coll),
                                         RelatedSelector(f, ctx.model.value, inv, env.newId));
    }

    /** controller.go:1142-1168: a custom action on the collection; the
        authorizers run, then the action's handler on what they left. */
    method HandleCollectionAction(ctx: Context) returns (r: Outcome<()>)
      modifies ctx
      ensures ctx.Keeps(old(ctx.Snapshot()))
      ensures ctx.request.collectionAction !in cfg.collectionActions ==>
        r == Err(MissingCollectionAction) && ctx.Snapshot() == old(ctx.Snapshot())
      ensures ctx.request.collectionAction in cfg.collectionActions ==>
        var auth := Run(cfg.authorizers, old(ctx.AsView()), AuthorizerStatus);
        && (auth.Err? ==> r == Err(auth.error) && ctx.Snapshot() == old(ctx.Snapshot()))
        && (auth.Ok? ==>
              var run := Callbacks.RunAction(cfg.collectionActions[ctx.request.collectionAction].handler, auth.value, ActionStatus);
              && (run.Err? ==> r == Err(run.error))
              && (run.Ok? ==> r.Ok? && ctx.Snapshot() == old(ctx.Snapshot()).(filters := run.value.filters, model := run.value.model)))
    {
      if ctx.request.collectionAction !in cfg.collectionActions {
        return Err(MissingCollectionAction);
      }
      var action := cfg.collectionActions[ctx.request.collectionAction];
      r := RunCallbacks(cfg.authorizers, ctx, AuthorizerStatus);
      if r.Err? {
        return;
      }
      r := RunAction(action, ctx, ActionStatus);
    }

    /** controller.go:1170-1196: a custom action on one document; the
        document is loaded (which runs the authorizers), then the action's
        handler runs on the context holding it. `loaded` is that context's
        view. */
    method HandleResourceAction(ctx: Context, store: Manager) returns (r: Outcome<()>, ghost loaded: View)
      requires store.Valid() && ctx.op == ResourceActionOp
      modifies ctx, store
      ensures ctx.Keeps(old(ctx.Snapshot()))
      ensures store.Valid() && store.docs == old(store.docs)
      ensures ctx.request.resourceAction !in cfg.resourceActions ==>
        r == Err(MissingResourceAction) && ctx.Snapshot() == old(ctx.Snapshot())
      ensures ctx.request.resourceAction in cfg.resourceActions && FromHex(ctx.request.resourceId).None? ==> r == Err(InvalidObjectId)
      ensures r.Ok? ==>
        var run := Callbacks.RunAction(cfg.resourceActions[ctx.request.resourceAction].handler, loaded, ActionStatus);
        && ctx.request.resourceAction in cfg.resourceActions
        && loaded.model.Some? && loaded.model.value in store.docs
        && FromHex(ctx.request.resourceId) == Some(loaded.model.value.id)
        && run.Ok? && ctx.AsView() == run.value
    {
      loaded := ctx.AsView();
      if ctx.request.resourceAction !in cfg.resourceActions {
        return Err(MissingResourceAction), loaded;
      }
      var action := cfg.resourceActions[ctx.request.resourceAction];
      ghost var q;
      r, q := LoadModel(ctx, store);
      if r.Err? {
        return;
      }
      loaded := ctx.AsView();
      r := RunAction(action, ctx, ActionStatus);
    }

    /** controller.go:339-367: the handler of the request's intent. Reads
        leave the store as it was, and a handled request responds with the
        status of its intent. */
    method RunOperation(ctx: Context, store: Manager, group: map<string, Controller>, colls: map<string, Collection>, env: Env)
      returns (r: Outcome<()>)
      requires Grouped(group, colls) && store.Valid() && ctx.op == OperationOf(ctx.request.intent)
      modifies ctx, store
      ensures store.Valid()
      ensures ctx.Keeps(old(ctx.Snapshot()))
      ensures !ctx.op.Write() ==> store.docs == old(store.docs)
      ensures r.Ok? && !ctx.op.Action() ==> ctx.code == SuccessCode(ctx.request.intent)
    {
      match ctx.request.intent {
        case ListResources =>
          r := RunRead(ctx, store, group, colls, env);
        case FindResource =>
          r := RunRead(ctx, store, group, colls, env);
        case GetRelatedResources =>
          r := RunRead(ctx, store, group, colls, env);
        case GetRelationship =>
          r := RunRead(ctx, store, group, colls, env);
        case CreateResource =>
          r := RunWrite(ctx, store, group, colls, env);
        case UpdateResource =>
          r := RunWrite(ctx, store, group, colls, env);
        case DeleteResource =>
          r := RunWrite(ctx, store, group, colls, env);
        case SetRelationship =>
          r := RunRelationshipWrite(ctx, store, group, colls);
        case AppendToRelationship =>
          r := RunRelationshipWrite(ctx, store, group, colls);
        case RemoveFromRelationship =>
          r := RunRelationshipWrite(ctx, store, group, colls);
        case CollectionAction =>
          r := HandleCollectionAction(ctx);
        case ResourceAction =>
          ghost var loaded;
          r, loaded := HandleResourceAction(ctx, store);
      }
    }

    /** The reading intents of controller.go:339-367. */
    method RunRead(ctx: Context, store: Manager, group: map<string, Controller>, colls: map<string, Collection>, env: Env)
      returns (r: Outcome<()>)
      requires Grouped(group, colls) && store.Valid() && ctx.op == OperationOf(ctx.request.intent)
      requires (ctx.request.intent.ListResources? || ctx.request.intent.FindResource? || ctx.request.intent.GetRelatedResources? || ctx.request.intent.GetRelationship?)
      modifies ctx, store
      ensures store.Valid() && store.docs == old(store.docs)
      ensures ctx.Keeps(old(ctx.Snapshot()))
      ensures r.Ok? ==> ctx.code == 200
    {
      var related := RelatedOf(group, colls, cfg.meta.plural, store.docs);
      if ctx.request.intent.ListResources? {
        ghost var loaded, counted, rs;
        r, loaded, counted, rs := ListResources(ctx, store, related);
      } else if ctx.request.intent.FindResource? {
        ghost var loaded, rendered;
        r, loaded, rendered := FindResource(ctx, store, related);
      } else if ctx.request.intent.GetRelatedResources? {
        ghost var loaded, inverse, listed, count;
        r, loaded, inverse, listed, count := GetRelatedResources(ctx, store, group, colls, env);
      } else {
        ghost var loaded, rendered;
        r, loaded, rendered := GetRelationship(ctx, store, related);
      }
    }

    /** The intents of controller.go:339-367 that create, update or delete
        a document. */
    method RunWrite(ctx: Context, store: Manager, group: map<string, Controller>, colls: map<string, Collection>, env: Env)
      returns (r: Outcome<()>)
      requires Grouped(group, colls) && store.Valid() && ctx.op == OperationOf(ctx.request.intent)
      requires (ctx.request.intent.CreateResource? || ctx.request.intent.UpdateResource? || ctx.request.intent.DeleteResource?)
      modifies ctx, store
      ensures store.Valid()
      ensures ctx.Keeps(old(ctx.Snapshot()))
      ensures r.Ok? ==> ctx.code == SuccessCode(ctx.request.intent)
    {
      var related := RelatedOf(group, colls, cfg.meta.plural, store.docs);
      if ctx.request.intent.CreateResource? {
        ghost var submitted, written, rendered;
        r, submitted, written, rendered := CreateResource(ctx, store, env);
      } else if ctx.request.intent.UpdateResource? {
        ghost var loaded, locked, submitted, written, rendered;
        r, loaded, locked, submitted, written, rendered := UpdateResource(ctx, store, related, env);
      } else {
        ghost var target;
        ghost var locked;
        r, locked, target := DeleteResource(ctx, store, env);
      }
    }

    /** The intents of controller.go:339-367 that replace, extend or shrink
        a relationship. */
    method RunRelationshipWrite(ctx: Context, store: Manager, group: map<string, Controller>, colls: map<string, Collection>)
      returns (r: Outcome<()>)
      requires Grouped(group, colls) && store.Valid() && ctx.op == OperationOf(ctx.request.intent)
      requires (ctx.request.intent.SetRelationship? || ctx.request.intent.AppendToRelationship? || ctx.request.intent.RemoveFromRelationship?)
      modifies ctx, store
      ensures store.Valid() && Ids(store.docs) == Ids(old(store.docs))
      ensures ctx.Keeps(old(ctx.Snapshot()))
      ensures r.Ok? ==> ctx.code == 200
    {
      var related := RelatedOf(group, colls, cfg.meta.plural, store.docs);
      ghost var loaded, locked, edited, submitted, rendered;
      if ctx.request.intent.SetRelationship? {
        r, loaded, locked, edited, submitted, rendered := SetRelationship(ctx, store, related);
      } else if ctx.request.intent.AppendToRelationship? {
        r, loaded, locked, edited, submitted, rendered := AppendToRelationship(ctx, store, related);
      } else {
        r, loaded, locked, edited, submitted, rendered := RemoveFromRelationship(ctx, store, related);
      }
    }

    /** controller.go:243-337 once the request and its document are parsed:
        the request begins with `selector`, and every operation but an
        action runs in a transaction whose writes a failure discards. */
    method Handle(ctx: Context, store: Manager, group: map<string, Controller>, colls: map<string, Collection>, env: Env, selector: Query)
      returns (r: Outcome<()>)
      requires Grouped(group, colls) && store.Valid()
      modifies ctx, store
      ensures store.Valid()
      ensures r.Err? ==> store.docs == old(store.docs)
      ensures !OperationOf(old(ctx.request).intent).Write() ==> store.docs == old(store.docs)
      ensures IdRejected(old(ctx.request)) ==> r == Err(InvalidResourceId)
      ensures r.Ok? ==>
        && !IdRejected(ctx.request)
        && ctx.op == OperationOf(ctx.request.intent)
        && supported.value(old(ctx.AsView()).(op := ctx.op))
        && ctx.inTx == !ctx.op.Action()
        && (!ctx.op.Action() ==> ctx.code == SuccessCode(ctx.request.intent))
    {
      r := Begin(ctx, selector);
      if r.Err? {
        return;
      }
      r := Transact(ctx, store, group, colls, env);
    }

    /** The operation run in a transaction unless it is an action
        (controller.go:322-331): on a failure the store is as it was. */
    method Transact(ctx: Context, store: Manager, group: map<string, Controller>, colls: map<string, Collection>, env: Env)
      returns (r: Outcome<()>)
      requires Grouped(group, colls) && store.Valid() && ctx.op == OperationOf(ctx.request.intent)
      modifies ctx, store
      ensures store.Valid()
      ensures r.Err? || !ctx.op.Write() ==> store.docs == old(store.docs)
      ensures ctx.op == old(ctx.op) && ctx.inTx == !ctx.op.Action()
      ensures ctx.request == old(ctx.request).(pageNumber := ctx.request.pageNumber, pageSize := ctx.request.pageSize)
      ensures r.Ok? && !ctx.op.Action() ==> ctx.code == SuccessCode(ctx.request.intent)
    {
      var saved := store.docs;
      ctx.inTx := !ctx.op.Action();
      r := RunOperation(ctx, store, group, colls, env);
      if r.Err? {
        store.docs := saved;
      }
    }
  }
}
