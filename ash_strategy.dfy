/** The strategy of ash/strategy.go: lists of authorizers per operation,
    searched in order for the first one that yields enforcers. In this file
    an authorizer yields a list of enforcers, which may be nil. */
module AshStrategy {
  import opened Wrappers
  import opened JsonApi
  import opened Ash

  datatype Authorizer = Authorizer(matcher: Matcher, handler: Ctx -> Result<Option<seq<Enforcer>>, Fault>)

  datatype Strategy = Strategy(
    list: seq<Authorizer>,
    find: seq<Authorizer>,
    create: seq<Authorizer>,
    update: seq<Authorizer>,
    delete: seq<Authorizer>,
    collectionAction: map<string, seq<Authorizer>>,
    resourceAction: map<string, seq<Authorizer>>,
    collectionActions: seq<Authorizer>,
    resourceActions: seq<Authorizer>,
    read: seq<Authorizer>,
    write: seq<Authorizer>,
    actions: seq<Authorizer>,
    all: seq<Authorizer>)

  /** The list a map holds for a name; a missing name holds none. */
  function Named(m: map<string, seq<Authorizer>>, name: string): (l: seq<Authorizer>)
    ensures name in m ==> l == m[name]
    ensures name !in m ==> l == []
  {
    if name in m then m[name] else []
  }

  /** The lists searched for the operation of `c`, most specific first and
      the list for all operations last. */
  function Lists(s: Strategy, c: Ctx): (r: seq<seq<Authorizer>>)
    ensures |r| == (if c.op.Action() then 4 else 3)
    ensures r[|r| - 1] == s.all
    ensures c.op == List || c.op == Find ==> r[1] == s.read
    ensures c.op.Write() ==> r[1] == s.write
    ensures c.op.Action() ==> r[2] == s.actions
    ensures c.op == CollectionActionOp ==> r[..2] == [Named(s.collectionAction, c.collectionAction), s.collectionActions]
    ensures c.op == ResourceActionOp ==> r[..2] == [Named(s.resourceAction, c.resourceAction), s.resourceActions]
    ensures c.op == List ==> r[0] == s.list
    ensures c.op == Find ==> r[0] == s.find
    ensures c.op == Create ==> r[0] == s.create
    ensures c.op == Update ==> r[0] == s.update
    ensures c.op == Delete ==> r[0] == s.delete
  {
    match c.op
    case List => [s.list, s.read, s.all]
    case Find => [s.find, s.read, s.all]
    case Create => [s.create, s.write, s.all]
    case Update => [s.update, s.write, s.all]
    case Delete => [s.delete, s.write, s.all]
    case CollectionActionOp => [Named(s.collectionAction, c.collectionAction), s.collectionActions, s.actions, s.all]
    case ResourceActionOp => [Named(s.resourceAction, c.resourceAction), s.resourceActions, s.actions, s.all]
  }

  /** The lists joined in order. */
  function Concat(lists: seq<seq<Authorizer>>): seq<Authorizer>
  {
    if lists == [] then [] else lists[0] + Concat(lists[1..])
  }

  const NotSupported := "ash: not supported"

  /** The enforcers run in order, each on the context the previous one
      left; one that cannot handle its context panics. */
  function Enforced(enforcers: seq<Enforcer>, c: Ctx): Result<Ctx, Fault>
    decreases |enforcers|
  {
    if enforcers == [] then Ok(c)
    else if !enforcers[0].matcher(c) then Err(Panic(NotSupported))
    else match enforcers[0].handler(c) {
      case Err(f) => Err(f)
      case Ok(c1) => Enforced(enforcers[1..], c1)
    }
  }

  /** `a` lets the search go on: it does not match `c`, or yields nil. */
  predicate Passes(a: Authorizer, c: Ctx) {
    !a.matcher(c) || a.handler(c) == Ok(None)
  }

  /** The outcome of searching `auths` in order: the first authorizer that
      matches and does not yield nil decides, by its fault or by running its
      enforcers; when none decides, access is denied. */
  function Search(auths: seq<Authorizer>, c: Ctx): Result<Ctx, Fault>
    decreases |auths|
  {
    if auths == [] then Err(Denied)
    else if Passes(auths[0], c) then Search(auths[1..], c)
    else match auths[0].handler(c) {
      case Err(f) => Err(f)
      case Ok(enforcers) => Enforced(enforcers.value, c)
    }
  }

  /** The callback of a strategy: it matches every operation and searches
      the lists of the context's operation. */
  function Callback(s: Strategy): (cb: Enforcer)
    ensures forall c :: cb.matcher(c)
    ensures forall c :: cb.handler(c) == Search(Concat(Lists(s, c)), c)
  {
    Enforcer(All(), (c: Ctx) => Search(Concat(Lists(s, c)), c))
  }

  /** Authorizers that all pass are skipped without effect. */
  lemma {:induction false} SkipPassing(auths: seq<Authorizer>, c: Ctx, i: nat)
    requires i <= |auths|
    requires forall k :: 0 <= k < i ==> Passes(auths[k], c)
    ensures Search(auths, c) == Search(auths[i..], c)
    decreases i
  {
    if i > 0 {
      assert Passes(auths[0], c);
      assert Search(auths, c) == Search(auths[1..], c);
      SkipPassing(auths[1..], c, i - 1);
      assert auths[1..][i - 1..] == auths[i..];
    }
  }

  /** When no authorizer decides, access is denied. */
  lemma NoneDecides(auths: seq<Authorizer>, c: Ctx)
    requires forall k :: 0 <= k < |auths| ==> Passes(auths[k], c)
    ensures Search(auths, c) == Err(Denied)
  {
    SkipPassing(auths, c, |auths|);
  }

  /** The first authorizer that does not pass decides alone: its fault is
      returned, or its enforcers run, and no later authorizer is asked. */
  lemma FirstDecides(auths: seq<Authorizer>, c: Ctx, i: nat)
    requires i < |auths|
    requires forall k :: 0 <= k < i ==> Passes(auths[k], c)
    requires !Passes(auths[i], c)
    ensures auths[i].handler(c).Err? ==> Search(auths, c) == Err(auths[i].handler(c).error)
    ensures auths[i].handler(c).Ok? ==> Search(auths, c) == Enforced(auths[i].handler(c).value.value, c)
    ensures Search(auths, c) == Search(auths[..i + 1], c)
  {
    SkipPassing(auths, c, i);
    SkipPassing(auths[..i + 1], c, i);
    assert auths[..i + 1][i..] == [auths[i]];
  }

  /** Enforcers run as a sequence: the second part runs on what the first
      left, and only when the first succeeded. */
  lemma {:induction false} EnforcedAppend(e1: seq<Enforcer>, e2: seq<Enforcer>, c: Ctx)
    ensures Enforced(e1 + e2, c) == match Enforced(e1, c) { case Err(f) => Err(f) case Ok(c1) => Enforced(e2, c1) }
    decreases |e1|
  {
    if e1 != [] {
      assert (e1 + e2)[0] == e1[0];
      assert (e1 + e2)[1..] == e1[1..] + e2;
      if e1[0].matcher(c) && e1[0].handler(c).Ok? {
        EnforcedAppend(e1[1..], e2, e1[0].handler(c).value);
      }
    } else {
      assert e1 + e2 == e2;
    }
  }

  /** Runs enforcers in order and stops at the first fault. */
  method RunEnforcers(enforcers: seq<Enforcer>, c: Ctx) returns (r: Result<Ctx, Fault>)
    ensures r == Enforced(enforcers, c)
  {
    var ctx := c;
    var i := 0;
    while i < |enforcers|
      invariant 0 <= i <= |enforcers|
      invariant Enforced(enforcers, c) == Enforced(enforcers[i..], ctx)
    {
      var enforcer := enforcers[i];
      assert enforcers[i..][0] == enforcer && enforcers[i..][1..] == enforcers[i + 1..];
      if !enforcer.matcher(ctx) {
        return Err(Panic(NotSupported));
      }
      var res := enforcer.handler(ctx);
      if res.Err? {
        return Err(res.error);
      }
      ctx := res.value;
      i := i + 1;
    }
    return Ok(ctx);
  }

  /** Searches the lists in order and the authorizers of each list in order
      (ash/strategy.go:73-113). */
  method Call(lists: seq<seq<Authorizer>>, c: Ctx) returns (r: Result<Ctx, Fault>)
    ensures r == Search(Concat(lists), c)
  {
    var i := 0;
    while i < |lists|
      invariant 0 <= i <= |lists|
      invariant Search(Concat(lists), c) == Search(Concat(lists[i..]), c)
    {
      var list := lists[i];
      var rest := Concat(lists[i + 1..]);
      assert lists[i..][1..] == lists[i + 1..];
      assert Concat(lists[i..]) == list + rest;
      var j := 0;
      while j < |list|
        invariant 0 <= j <= |list|
        invariant Search(Concat(lists), c) == Search(list[j..] + rest, c)
      {
        var authorizer := list[j];
        assert (list[j..] + rest)[0] == authorizer;
        assert (list[j..] + rest)[1..] == list[j + 1..] + rest;
        if authorizer.matcher(c) {
          var res := authorizer.handler(c);
          if res.Err? {
            return Err(res.error);
          }
          if res.value.Some? {
            r := RunEnforcers(res.value.value, c);
            return;
          }
        }
        j := j + 1;
      }
      assert list[j..] + rest == rest;
      i := i + 1;
    }
    return Err(Denied);
  }
}
