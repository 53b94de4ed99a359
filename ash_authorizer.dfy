/** Authorizers and their combinators (ash/authorizer.go). An authorizer
    inspects a context it matches and yields one enforcer, none (it cannot
    decide), or a fault. */
module AshAuthorizers {
  import opened Wrappers
  import opened Ash

  datatype Authorizer = Authorizer(matcher: Matcher, handler: Ctx -> Result<Option<Enforcer>, Fault>)

  /** An authorizer from a handler; a missing matcher matches everything.
      The trace around the handler is not modelled. */
  function A(m: Option<Matcher>, h: Ctx -> Result<Option<Enforcer>, Fault>): (a: Authorizer)
    ensures m.None? ==> forall c :: a.matcher(c)
    ensures m.Some? ==> forall c :: a.matcher(c) == m.value(c)
    ensures forall c :: a.handler(c) == h(c)
  {
    Authorizer(if m.None? then All() else m.value, (c: Ctx) => match h(c) { case Err(e) => Err(e) case Ok(enf) => Ok(enf) })
  }

  /** The enforcer And builds from two: it handles what both handle, and
      runs the first, then the second on the context the first left. */
  function Both(e1: Enforcer, e2: Enforcer): (e: Enforcer)
    ensures forall c :: e.matcher(c) == (e1.matcher(c) && e2.matcher(c))
    ensures forall c :: e1.handler(c).Err? ==> e.handler(c) == e1.handler(c)
    ensures forall c :: e1.handler(c).Ok? ==> e.handler(c) == e2.handler(e1.handler(c).value)
  {
    Enforcer((c: Ctx) => e1.matcher(c) && e2.matcher(c),
             (c: Ctx) => match e1.handler(c) { case Err(f) => Err(f) case Ok(c1) => e2.handler(c1) })
  }

  /** The handler of `And(a, b)`: `a` is asked first, then `b`; either one
      not matching or yielding no enforcer yields none. */
  function AndHandler(a: Authorizer, b: Authorizer, c: Ctx): Result<Option<Enforcer>, Fault> {
    if !a.matcher(c) then Ok(None)
    else match a.handler(c) {
      case Err(f) => Err(f)
      case Ok(None) => Ok(None)
      case Ok(Some(e1)) =>
        if !b.matcher(c) then Ok(None)
        else match b.handler(c) {
          case Err(f) => Err(f)
          case Ok(None) => Ok(None)
          case Ok(Some(e2)) => Ok(Some(Both(e1, e2)))
        }
    }
  }

  function And(a: Authorizer, b: Authorizer): (r: Authorizer)
    ensures forall c :: r.matcher(c) == (a.matcher(c) && b.matcher(c))
    ensures forall c :: r.handler(c) == AndHandler(a, b, c)
  {
    A(Some((c: Ctx) => a.matcher(c) && b.matcher(c)), (c: Ctx) => AndHandler(a, b, c))
  }

  /** And yields an enforcer exactly when both authorizers match and both
      yield one; the enforcer is then the two run in order. */
  lemma AndYields(a: Authorizer, b: Authorizer, c: Ctx)
    ensures And(a, b).handler(c).Ok? && And(a, b).handler(c).value.Some? <==>
      && a.matcher(c) && a.handler(c).Ok? && a.handler(c).value.Some?
      && b.matcher(c) && b.handler(c).Ok? && b.handler(c).value.Some?
    ensures And(a, b).handler(c).Ok? && And(a, b).handler(c).value.Some? ==>
      And(a, b).handler(c).value.value == Both(a.handler(c).value.value, b.handler(c).value.value)
  {
  }

  /** A fault from And is the fault of `a`, or the fault of `b` once `a`
      yielded an enforcer; `b` is not asked when `a` fails or yields none. */
  lemma AndFaults(a: Authorizer, b: Authorizer, c: Ctx)
    requires And(a, b).handler(c).Err?
    ensures a.matcher(c)
    ensures a.handler(c).Err? ==> And(a, b).handler(c) == a.handler(c)
    ensures a.handler(c).Ok? ==> a.handler(c).value.Some? && b.matcher(c) && And(a, b).handler(c) == b.handler(c)
  {
  }

  /** The handler of `Or(a, b)`: `a` is asked without its matcher, and `b`
      only when `a` yields no enforcer. */
  function OrHandler(a: Authorizer, b: Authorizer, c: Ctx): Result<Option<Enforcer>, Fault> {
    match a.handler(c) {
      case Err(f) => Err(f)
      case Ok(Some(e1)) => Ok(Some(e1))
      case Ok(None) => match b.handler(c) { case Err(f) => Err(f) case Ok(e2) => Ok(e2) }
    }
  }

  function Or(a: Authorizer, b: Authorizer): (r: Authorizer)
    ensures forall c :: r.matcher(c)
    ensures forall c :: r.handler(c) == OrHandler(a, b, c)
  {
    A(None, (c: Ctx) => OrHandler(a, b, c))
  }

  /** Or yields the enforcer of `a` whenever `a` yields one, and otherwise
      exactly what `b` yields; a fault of `a` stops it. */
  lemma OrPrefersFirst(a: Authorizer, b: Authorizer, c: Ctx)
    ensures a.handler(c).Err? ==> Or(a, b).handler(c) == a.handler(c)
    ensures a.handler(c).Ok? && a.handler(c).value.Some? ==> Or(a, b).handler(c) == a.handler(c)
    ensures a.handler(c) == Ok(None) ==> Or(a, b).handler(c) == b.handler(c)
    ensures Or(a, b).handler(c).Ok? && Or(a, b).handler(c).value.Some? <==>
      (a.handler(c).Ok? && a.handler(c).value.Some?) || (a.handler(c) == Ok(None) && b.handler(c).Ok? && b.handler(c).value.Some?)
  {
  }
}
