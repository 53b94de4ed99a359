/** Token leases on named values (glut/locks.go): a value, keyed by its
    component and name, is locked by a token until a point in time, and only
    the holder of a live lease may read, write, delete or unlock it. The
    clock is the explicit `now` of every call. */
module Locks {
  import opened Wrappers
  import opened ObjectIds
  import Documents

  /** The free-form contents of a value. */
  type Data = map<string, Documents.Value>

  /** A stored value: locked until `locked` by `token` (both nil once
      unlocked), kept until `deadline` if one is set, and its contents. */
  datatype Entry = Entry(locked: Option<int>, token: Option<Id>, deadline: Option<int>, data: Data)

  datatype Key = Key(component: string, name: string)

  /** The stored values by component and name. */
  type Values = map<Key, Entry>

  /** The values after a call and what the call returned. */
  datatype Step<T> = Step(values: Values, result: Result<T, string>)

  const InvalidToken := "invalid token"
  const InvalidTimeout := "invalid timeout"
  const InvalidTtl := "invalid ttl"

  /** The deadline a lock or an unlock records (glut/locks.go:34-37,
      185-188): `now + ttl` when a ttl is given, none otherwise. */
  function Deadline(now: int, ttl: int): (d: Option<int>)
    ensures d.Some? <==> ttl > 0
    ensures d.Some? ==> d.value == now + ttl
  {
    if ttl > 0 then Some(now + ttl) else None
  }

  /** `token` may take the lock of `e` at `now`: it is unlocked, its lease
      ran out, or `token` already holds it. */
  predicate Takeable(e: Entry, token: Id, now: int) {
    e.token.None? || (e.locked.Some? && e.locked.value < now) || e.token == Some(token)
  }

  /** `token` holds a live lease on `e` at `now`. */
  predicate HeldBy(e: Entry, token: Id, now: int) {
    e.token == Some(token) && e.locked.Some? && e.locked.value > now
  }

  /** The argument checks of a lock (glut/locks.go:18-31), in order. */
  function LockProblem(token: Id, timeout: int, ttl: int): (p: Option<string>)
    ensures p.None? <==> !token.IsZero() && timeout != 0 && !(0 < ttl < timeout)
    ensures token.IsZero() ==> p == Some(InvalidToken)
  {
    if token.IsZero() then Some(InvalidToken)
    else if timeout == 0 then Some(InvalidTimeout)
    else if ttl > 0 && ttl < timeout then Some(InvalidTtl)
    else None
  }

  /** glut/locks.go:17-100. The result is whether the store changed: a
      missing value is created locked, an existing one is locked when
      `token` may take it and the lease differs from the stored one. */
  function LockStep(vs: Values, k: Key, token: Id, timeout: int, ttl: int, now: int): (s: Step<bool>)
    ensures LockProblem(token, timeout, ttl).Some? ==> s == Step(vs, Err(LockProblem(token, timeout, ttl).value))
    ensures LockProblem(token, timeout, ttl).None? ==> s.result.Ok? && s.values.Keys == vs.Keys + {k}
    ensures LockProblem(token, timeout, ttl).None? && k !in vs ==>
      s.result == Ok(true) && s.values[k] == Entry(Some(now + timeout), Some(token), Deadline(now, ttl), map[])
    ensures LockProblem(token, timeout, ttl).None? && k in vs && !Takeable(vs[k], token, now) ==> s == Step(vs, Ok(false))
    ensures LockProblem(token, timeout, ttl).None? && k in vs && Takeable(vs[k], token, now) ==>
      && s.values[k] == vs[k].(locked := Some(now + timeout), token := Some(token), deadline := Deadline(now, ttl))
      && s.result == Ok(s.values[k] != vs[k])
    ensures forall o :: o != k && o in vs ==> o in s.values && s.values[o] == vs[o]
  {
    var problem := LockProblem(token, timeout, ttl);
    if problem.Some? then Step(vs, Err(problem.value))
    else if k !in vs then Step(vs[k := Entry(Some(now + timeout), Some(token), Deadline(now, ttl), map[])], Ok(true))
    else if !Takeable(vs[k], token, now) then Step(vs, Ok(false))
    else
      var e := vs[k].(locked := Some(now + timeout), token := Some(token), deadline := Deadline(now, ttl));
      Step(vs[k := e], Ok(e != vs[k]))
  }

  /** glut/locks.go:104-128: the contents replaced when `token` holds a
      live lease; the result is whether they changed. */
  function SetLockedStep(vs: Values, k: Key, data: Data, token: Id, now: int): (s: Step<bool>)
    ensures token.IsZero() ==> s == Step(vs, Err(InvalidToken))
    ensures !token.IsZero() && !(k in vs && HeldBy(vs[k], token, now)) ==> s == Step(vs, Ok(false))
    ensures !token.IsZero() && k in vs && HeldBy(vs[k], token, now) ==>
      s == Step(vs[k := vs[k].(data := data)], Ok(vs[k].data != data))
  {
    if token.IsZero() then Step(vs, Err(InvalidToken))
    else if k in vs && HeldBy(vs[k], token, now) then Step(vs[k := vs[k].(data := data)], Ok(vs[k].data != data))
    else Step(vs, Ok(false))
  }

  /** glut/locks.go:132-150: the contents when `token` holds a live lease,
      none otherwise; the token is not checked for zero. */
  function GetLockedOf(vs: Values, k: Key, token: Id, now: int): (r: Option<Data>)
    ensures r.Some? <==> k in vs && HeldBy(vs[k], token, now)
    ensures r.Some? ==> r.value == vs[k].data
  {
    if k in vs && HeldBy(vs[k], token, now) then Some(vs[k].data) else None
  }

  /** glut/locks.go:154-174: the value deleted when `token` holds a live
      lease. */
  function DelLockedStep(vs: Values, k: Key, token: Id, now: int): (s: Step<bool>)
    ensures token.IsZero() ==> s == Step(vs, Err(InvalidToken))
    ensures !token.IsZero() ==> s.result == Ok(k in vs && HeldBy(vs[k], token, now))
    ensures !token.IsZero() && s.result == Ok(true) ==> s.values == vs - {k}
    ensures s.result != Ok(true) ==> s.values == vs
  {
    if token.IsZero() then Step(vs, Err(InvalidToken))
    else if k in vs && HeldBy(vs[k], token, now) then Step(vs - {k}, Ok(true))
    else Step(vs, Ok(false))
  }

  /** glut/locks.go:178-209: the lease released when `token` holds it,
      recording the new deadline. */
  function UnlockStep(vs: Values, k: Key, token: Id, ttl: int, now: int): (s: Step<bool>)
    ensures token.IsZero() ==> s == Step(vs, Err(InvalidToken))
    ensures !token.IsZero() ==> s.result == Ok(k in vs && HeldBy(vs[k], token, now))
    ensures s.result == Ok(true) ==>
      s.values == vs[k := vs[k].(locked := None, token := None, deadline := Deadline(now, ttl))]
    ensures s.result != Ok(true) ==> s.values == vs
  {
    if token.IsZero() then Step(vs, Err(InvalidToken))
    else if k in vs && HeldBy(vs[k], token, now) then
      var e := vs[k].(locked := None, token := None, deadline := Deadline(now, ttl));
      Step(vs[k := e], Ok(e != vs[k]))
    else Step(vs, Ok(false))
  }

  /** A successful lock is a live lease of `token` until the timeout ends. */
  lemma LockHolds(vs: Values, k: Key, token: Id, timeout: int, ttl: int, now: int, later: int)
    requires LockStep(vs, k, token, timeout, ttl, now).result == Ok(true)
    requires now <= later < now + timeout
    ensures HeldBy(LockStep(vs, k, token, timeout, ttl, now).values[k], token, later)
  {
  }

  /** After an unlock, a lock with any valid token succeeds, whatever the
      time. */
  lemma UnlockThenLock(vs: Values, k: Key, token: Id, ttl: int, now: int, other: Id, timeout: int, ttl2: int, later: int)
    requires UnlockStep(vs, k, token, ttl, now).result == Ok(true)
    requires LockProblem(other, timeout, ttl2).None?
    ensures LockStep(UnlockStep(vs, k, token, ttl, now).values, k, other, timeout, ttl2, later).result == Ok(true)
  {
    var e := UnlockStep(vs, k, token, ttl, now).values[k];
    assert e.token.None?;
  }

  /** Contents written under a lease are read back under it. */
  lemma SetThenGet(vs: Values, k: Key, data: Data, token: Id, now: int)
    requires !token.IsZero() && k in vs && HeldBy(vs[k], token, now)
    ensures GetLockedOf(SetLockedStep(vs, k, data, token, now).values, k, token, now) == Some(data)
  {
  }

  /** While one token holds a live lease, a lock with another token fails
      and changes nothing. */
  lemma LeaseExcludes(vs: Values, k: Key, holder: Id, other: Id, timeout: int, ttl: int, now: int)
    requires k in vs && HeldBy(vs[k], holder, now) && other != holder
    ensures LockStep(vs, k, other, timeout, ttl, now).values == vs
    ensures LockStep(vs, k, other, timeout, ttl, now).result.Ok? ==> LockStep(vs, k, other, timeout, ttl, now).result == Ok(false)
  {
  }

  /** The value store of the locks, each call a method over it. */
  class Store {
    var values: Values

    constructor ()
      ensures values == map[]
    {
      values := map[];
    }

    method Lock(component: string, name: string, token: Id, timeout: int, ttl: int, now: int) returns (r: Result<bool, string>)
      modifies this
      ensures Step(values, r) == LockStep(old(values), Key(component, name), token, timeout, ttl, now)
    {
      if token.IsZero() {
        return Err(InvalidToken);
      }
      if timeout == 0 {
        return Err(InvalidTimeout);
      }
      if ttl > 0 && ttl < timeout {
        return Err(InvalidTtl);
      }
      var deadline := None;
      if ttl > 0 {
        deadline := Some(now + ttl);
      }
      var locked := now + timeout;
      var k := Key(component, name);
      if k !in values {
        values := values[k := Entry(Some(locked), Some(token), deadline, map[])];
        return Ok(true);
      }
      var e := values[k];
      if !Takeable(e, token, now) {
        return Ok(false);
      }
      var next := e.(locked := Some(locked), token := Some(token), deadline := deadline);
      values := values[k := next];
      return Ok(next != e);
    }

    method SetLocked(component: string, name: string, data: Data, token: Id, now: int) returns (r: Result<bool, string>)
      modifies this
      ensures Step(values, r) == SetLockedStep(old(values), Key(component, name), data, token, now)
    {
      if token.IsZero() {
        return Err(InvalidToken);
      }
      var k := Key(component, name);
      if k !in values || !HeldBy(values[k], token, now) {
        return Ok(false);
      }
      var e := values[k];
      values := values[k := e.(data := data)];
      return Ok(e.data != data);
    }

    method GetLocked(component: string, name: string, token: Id, now: int) returns (data: Option<Data>)
      ensures data == GetLockedOf(values, Key(component, name), token, now)
    {
      var k := Key(component, name);
      if k !in values || !HeldBy(values[k], token, now) {
        return None;
      }
      return Some(values[k].data);
    }

    method DelLocked(component: string, name: string, token: Id, now: int) returns (r: Result<bool, string>)
      modifies this
      ensures Step(values, r) == DelLockedStep(old(values), Key(component, name), token, now)
    {
      if token.IsZero() {
        return Err(InvalidToken);
      }
      var k := Key(component, name);
      if k !in values || !HeldBy(values[k], token, now) {
        return Ok(false);
      }
      values := values - {k};
      return Ok(true);
    }

    method Unlock(component: string, name: string, token: Id, ttl: int, now: int) returns (r: Result<bool, string>)
      modifies this
      ensures Step(values, r) == UnlockStep(old(values), Key(component, name), token, ttl, now)
    {
      if token.IsZero() {
        return Err(InvalidToken);
      }
      var deadline := None;
      if ttl > 0 {
        deadline := Some(now + ttl);
      }
      var k := Key(component, name);
      if k !in values || !HeldBy(values[k], token, now) {
        return Ok(false);
      }
      var e := values[k];
      var next := e.(locked := None, token := None, deadline := deadline);
      values := values[k := next];
      return Ok(next != e);
    }
  }
}
