/** Callbacks (authorizers, validators, decorators, notifiers, actions) and
    the runner that executes a list of them for one step of an operation. */
module Callbacks {
  import opened Wrappers
  import opened Documents
  import opened JsonApi

  /** What a callback sees of the request context. */
  datatype View = View(
    op: Operation,
    request: Request,
    model: Option<Doc>,
    original: Option<Doc>,
    models: seq<Doc>,
    selector: Query,
    filters: seq<Cond>)

  /** A safe error is meant for the client and takes the step's status; an
      error that carries its own status (a JSON:API error such as the
      access-denied error) keeps it; any other error is internal. */
  datatype Failure = Safe(msg: string) | Status(status: int, detail: string) | Unsafe(msg: string)

  /** What a callback that returns nil has done to the context: the query
      filters it added and the model it left in place. */
  datatype Effect = Effect(filters: seq<Cond>, model: Option<Doc>)

  datatype Callback = Callback(matcher: View -> bool, handler: View -> Result<Effect, Failure>)

  function Apply(v: View, e: Effect): (r: View)
    ensures v.filters <= r.filters
  {
    v.(filters := v.filters + e.filters, model := e.model)
  }

  /** How a callback error aborts the request: a safe error with the step's
      status, an error with its own status unchanged, any other error as an
      internal error. */
  function AbortFor(f: Failure, status: int): (a: Wrappers.Abort)
    ensures f.Safe? ==> a == Wrappers.Abort(status, f.msg)
    ensures f.Status? ==> a == Wrappers.Abort(f.status, f.detail)
    ensures f.Unsafe? ==> a.status == 500
  {
    match f
    case Safe(msg) => Wrappers.Abort(status, msg)
    case Status(code, detail) => Wrappers.Abort(code, detail)
    case Unsafe(msg) => Internal(msg)
  }

  /** No handler of `list` ever fails with an error of its own status. */
  ghost predicate NoOwnStatus(list: seq<Callback>) {
    forall i, w :: 0 <= i < |list| && list[i].handler(w).Err? ==> !list[i].handler(w).error.Status?
  }

  /** The callbacks of `list` in order, each only when its matcher accepts
      the context as the earlier ones left it; the first error ends the run. */
  function Run(list: seq<Callback>, v: View, status: int): (r: Result<View, Wrappers.Abort>)
    ensures r.Err? && NoOwnStatus(list) ==> r.error.status == status || r.error.status == 500
    ensures r.Ok? ==> v.filters <= r.value.filters
    ensures r.Ok? ==> r.value == v.(filters := r.value.filters, model := r.value.model)
    decreases |list|
  {
    if list == [] then Ok(v)
    else if !list[0].matcher(v) then Run(list[1..], v, status)
    else match list[0].handler(v)
      case Err(f) => Err(AbortFor(f, status))
      case Ok(e) => Run(list[1..], Apply(v, e), status)
  }

  /** controller.go:1933-1961 as a loop over the list. */
  method RunCallbacks(list: seq<Callback>, v: View, status: int) returns (r: Result<View, Wrappers.Abort>)
    ensures r == Run(list, v, status)
  {
    var cur := v;
    var i := 0;
    while i < |list|
      invariant 0 <= i <= |list|
      invariant Run(list, v, status) == Run(list[i..], cur, status)
    {
      assert list[i..][1..] == list[i + 1..];
      var cb := list[i];
      if cb.matcher(cur) {
        var res := cb.handler(cur);
        if res.Err? {
          return Err(AbortFor(res.error, status));
        }
        cur := Apply(cur, res.value);
      }
      i := i + 1;
    }
    return Ok(cur);
  }

  /** An action's handler runs unconditionally; its error aborts like a callback's. */
  function RunAction(handler: View -> Result<Effect, Failure>, v: View, status: int): (r: Result<View, Wrappers.Abort>)
    ensures r.Ok? <==> handler(v).Ok?
    ensures r.Err? ==> r.error == AbortFor(handler(v).error, status)
  {
    match handler(v)
    case Err(f) => Err(AbortFor(f, status))
    case Ok(e) => Ok(Apply(v, e))
  }

  /** Running two lists one after the other is running their concatenation. */
  lemma {:induction false} RunConcat(a: seq<Callback>, b: seq<Callback>, v: View, status: int)
    ensures Run(a + b, v, status) ==
      (match Run(a, v, status)
       case Err(e) => Err(e)
       case Ok(v2) => Run(b, v2, status))
    decreases |a|
  {
    if a == [] {
      assert a + b == b;
    } else {
      assert (a + b)[1..] == a[1..] + b;
      if !a[0].matcher(v) {
        RunConcat(a[1..], b, v, status);
      } else if a[0].handler(v).Ok? {
        RunConcat(a[1..], b, Apply(v, a[0].handler(v).value), status);
      }
    }
  }

  /** Once a callback has failed, no later callback runs. */
  lemma RunStopsAtFailure(a: seq<Callback>, b: seq<Callback>, v: View, status: int)
    requires Run(a, v, status).Err?
    ensures Run(a + b, v, status) == Run(a, v, status)
  {
    RunConcat(a, b, v, status);
  }

  /** A callback whose matcher rejects the context is skipped: whatever its
      handler would do makes no difference. */
  lemma {:induction false} RunIgnoresUnmatched(list: seq<Callback>, v: View, status: int)
    requires forall i :: 0 <= i < |list| ==> !list[i].matcher(v)
    ensures Run(list, v, status) == Ok(v)
    decreases |list|
  {
    if list != [] {
      RunIgnoresUnmatched(list[1..], v, status);
    }
  }

  /** A matched callback failing with an error of its own status aborts
      with that error unchanged, whatever the step. */
  lemma OwnStatusPassesThrough(cb: Callback, rest: seq<Callback>, v: View, status: int, code: int, detail: string)
    requires cb.matcher(v) && cb.handler(v) == Err(Status(code, detail))
    ensures Run([cb] + rest, v, status) == Err(Wrappers.Abort(code, detail))
  {
    assert ([cb] + rest)[0] == cb;
  }

  /** A matched callback failing with a safe error aborts with the step's
      status and its message. */
  lemma SafeFailureCarriesStatus(cb: Callback, rest: seq<Callback>, v: View, status: int, msg: string)
    requires cb.matcher(v) && cb.handler(v) == Err(Safe(msg))
    ensures Run([cb] + rest, v, status) == Err(Wrappers.Abort(status, msg))
  {
    assert ([cb] + rest)[0] == cb;
  }
}
