/** Name-based access to the fields of a struct (stick/access.go): an
    accessor maps field names to positions and types, a process-wide cache
    holds one accessor per struct type, and values are read and written
    through it. Go's dynamic values are tagged with their type; an untyped
    nil has none. */
module Stick {
  import opened Wrappers
  import Documents

  /** A Go type as far as assignment cares: its name and whether it is a
      pointer. */
  datatype Type = Type(name: string, pointer: bool)

  /** A dynamic value: untyped nil, or a value of a type. */
  datatype Any = UntypedNil | Val(typ: Type, payload: Documents.Value)

  /** A struct type: its printed name and its fields in declaration order. */
  datatype StructType = StructType(name: string, fields: seq<(string, Type)>)

  datatype FieldRef = FieldRef(index: nat, typ: Type)

  datatype Accessor = Accessor(name: string, fields: map<string, FieldRef>)

  const Embedded := "BasicAccess"

  /** Go rejects two fields of one struct with the same name. */
  predicate DistinctNames(t: StructType) {
    forall i, j :: 0 <= i < j < |t.fields| ==> t.fields[i].0 != t.fields[j].0
  }

  /** The accessor of the first `n` fields of `t`, leaving out `ignore`. */
  function AccessorOf(t: StructType, ignore: seq<string>, n: nat): (a: Accessor)
    requires n <= |t.fields|
    ensures a.name == t.name
    decreases n
  {
    if n == 0 then Accessor(t.name, map[])
    else
      var a := AccessorOf(t, ignore, n - 1);
      var (name, typ) := t.fields[n - 1];
      if name in ignore then a else a.(fields := a.fields[name := FieldRef(n - 1, typ)])
  }

  /** Every entry of the accessor points at a field of that name and type
      among the first `n`; every field there that is not ignored has an
      entry; no ignored name has one. */
  lemma {:induction false} AccessorFields(t: StructType, ignore: seq<string>, n: nat)
    requires n <= |t.fields|
    ensures var a := AccessorOf(t, ignore, n);
      && (forall name :: name in a.fields ==> a.fields[name].index < n && t.fields[a.fields[name].index] == (name, a.fields[name].typ))
      && (forall i :: 0 <= i < n && t.fields[i].0 !in ignore ==> t.fields[i].0 in a.fields)
      && (forall name :: name in a.fields ==> name !in ignore)
    decreases n
  {
    if n > 0 {
      AccessorFields(t, ignore, n - 1);
    }
  }

  /** The accessor of a whole struct type. */
  function Built(t: StructType, ignore: seq<string>): Accessor {
    AccessorOf(t, ignore, |t.fields|)
  }

  /** With distinct names the accessor has exactly one entry per field not
      ignored, at that field's own position. */
  lemma BuiltExactly(t: StructType, ignore: seq<string>, i: nat)
    requires DistinctNames(t) && i < |t.fields| && t.fields[i].0 !in ignore
    ensures t.fields[i].0 in Built(t, ignore).fields && Built(t, ignore).fields[t.fields[i].0] == FieldRef(i, t.fields[i].1)
  {
    AccessorFields(t, ignore, |t.fields|);
    var r := Built(t, ignore).fields[t.fields[i].0];
    assert t.fields[r.index].0 == t.fields[i].0;
  }

  /** Whether `name` is one of the ignored names. */
  method IsIgnored(name: string, ignore: seq<string>) returns (skip: bool)
    ensures skip <==> name in ignore
  {
    skip := false;
    var j := 0;
    while j < |ignore|
      invariant 0 <= j <= |ignore|
      invariant skip <==> name in ignore[..j]
    {
      assert ignore[..j + 1] == ignore[..j] + [ignore[j]];
      if ignore[j] == name {
        skip := true;
      }
      j := j + 1;
    }
    assert ignore[..j] == ignore;
  }

  /** stick/access.go:62-96: one entry per field not in `ignore`. */
  method BuildAccessor(t: StructType, ignore: seq<string>) returns (a: Accessor)
    ensures a == Built(t, ignore)
  {
    a := Accessor(t.name, map[]);
    var i := 0;
    while i < |t.fields|
      invariant 0 <= i <= |t.fields|
      invariant a == AccessorOf(t, ignore, i)
    {
      var name := t.fields[i].0;
      var skip := IsIgnored(name, ignore);
      if !skip {
        a := a.(fields := a.fields[name := FieldRef(i, t.fields[i].1)]);
      }
      i := i + 1;
    }
  }

  /** A struct value: its type and one value per field. */
  class Instance {
    const typ: StructType
    var values: seq<Any>

    /** Every field holds a value of its declared type. */
    ghost predicate Valid()
      reads this
    {
      && |values| == |typ.fields|
      && forall i :: 0 <= i < |values| ==> values[i].Val? && values[i].typ == typ.fields[i].1
    }

    constructor (t: StructType, vs: seq<Any>)
      requires |vs| == |t.fields| && forall i :: 0 <= i < |vs| ==> vs[i].Val? && vs[i].typ == t.fields[i].1
      ensures typ == t && values == vs && Valid()
    {
      typ := t;
      values := vs;
    }
  }

  /** The value of a named field, if the accessor knows it. */
  function GetIn(a: Accessor, values: seq<Any>, name: string): (r: Option<Any>)
    ensures r.Some? <==> name in a.fields && a.fields[name].index < |values|
    ensures r.Some? ==> r.value == values[a.fields[name].index]
  {
    if name in a.fields && a.fields[name].index < |values| then Some(values[a.fields[name].index]) else None
  }

  const NoTypePanic := "reflect: call of reflect.Value.Type on zero Value"

  /** What is stored for `value` in a field of type `ft`: an untyped nil
      becomes the pointer type's nil. */
  function Corrected(value: Any, ft: Type): (c: Any)
    ensures value.Val? ==> c == value
    ensures value.UntypedNil? && ft.pointer ==> c == Val(ft, Documents.Null)
    ensures value.UntypedNil? && !ft.pointer ==> c.UntypedNil?
  {
    if value.UntypedNil? && ft.pointer then Val(ft, Documents.Null) else value
  }

  /** The field values after setting a named field, `None` when the field
      is unknown or the types differ; an untyped nil for a field that is not
      a pointer has no type to compare and panics. */
  function SetIn(a: Accessor, values: seq<Any>, name: string, value: Any): (r: Result<Option<seq<Any>>, string>)
    ensures r.Err? <==> name in a.fields && a.fields[name].index < |values| && value.UntypedNil? && !a.fields[name].typ.pointer
    ensures r.Err? ==> r.error == NoTypePanic
    ensures r.Ok? && r.value.Some? <==>
      name in a.fields && a.fields[name].index < |values| && Corrected(value, a.fields[name].typ).Val?
      && Corrected(value, a.fields[name].typ).typ == a.fields[name].typ
    ensures r.Ok? && r.value.Some? ==>
      r.value.value == values[a.fields[name].index := Corrected(value, a.fields[name].typ)]
  {
    if name !in a.fields || a.fields[name].index >= |values| then Ok(None)
    else
      var f := a.fields[name];
      var v := Corrected(value, f.typ);
      if v.UntypedNil? then Err(NoTypePanic)
      else if v.typ != f.typ then Ok(None)
      else Ok(Some(values[f.index := v]))
  }

  /** After a successful set, a get of the same field reads the stored
      value, and every other field keeps its value. */
  lemma SetThenGet(a: Accessor, values: seq<Any>, name: string, value: Any, other: string)
    requires SetIn(a, values, name, value).Ok? && SetIn(a, values, name, value).value.Some?
    ensures GetIn(a, SetIn(a, values, name, value).value.value, name) == Some(Corrected(value, a.fields[name].typ))
    ensures other in a.fields && a.fields[other].index != a.fields[name].index ==>
      GetIn(a, SetIn(a, values, name, value).value.value, other) == GetIn(a, values, other)
  {
  }

  /** Setting a field keeps every field at its declared type. */
  lemma SetKeepsTypes(t: StructType, values: seq<Any>, name: string, value: Any)
    requires |values| == |t.fields| && forall i :: 0 <= i < |values| ==> values[i].Val? && values[i].typ == t.fields[i].1
    requires SetIn(Built(t, [Embedded]), values, name, value).Ok? && SetIn(Built(t, [Embedded]), values, name, value).value.Some?
    ensures var vs := SetIn(Built(t, [Embedded]), values, name, value).value.value;
      |vs| == |t.fields| && forall i :: 0 <= i < |vs| ==> vs[i].Val? && vs[i].typ == t.fields[i].1
  {
    AccessorFields(t, [Embedded], |t.fields|);
  }

  function GetPanic(field: string, a: Accessor): string {
    "stick: could not get field \"" + field + "\" on \"" + a.name + "\""
  }

  function SetPanic(field: string, a: Accessor): string {
    "stick: could not set \"" + field + "\" on \"" + a.name + "\""
  }

  /** The process-wide accessor cache (stick/access.go:31-59). */
  class Cache {
    var entries: map<StructType, Accessor>

    /** Every cached accessor is the one built for its type. */
    ghost predicate Valid()
      reads this
    {
      forall t :: t in entries ==> entries[t] == Built(t, [Embedded])
    }

    constructor ()
      ensures entries == map[] && Valid()
    {
      entries := map[];
    }

    /** The accessor of `t`: built and cached on the first request, the
        cached one afterwards. */
    method GetAccessor(t: StructType) returns (a: Accessor)
      requires Valid()
      modifies this
      ensures Valid()
      ensures a == Built(t, [Embedded])
      ensures t in old(entries) ==> entries == old(entries)
      ensures t !in old(entries) ==> entries == old(entries)[t := a]
    {
      if t in entries {
        return entries[t];
      }
      a := BuildAccessor(t, [Embedded]);
      entries := entries[t := a];
    }

    /** stick/access.go:100-111. */
    method Get(inst: Instance, name: string) returns (value: Any, ok: bool)
      requires Valid()
      modifies this
      ensures Valid()
      ensures ok <==> GetIn(Built(inst.typ, [Embedded]), inst.values, name).Some?
      ensures ok ==> value == GetIn(Built(inst.typ, [Embedded]), inst.values, name).value
      ensures !ok ==> value == UntypedNil
    {
      var a := GetAccessor(inst.typ);
      if name !in a.fields || a.fields[name].index >= |inst.values| {
        return UntypedNil, false;
      }
      return inst.values[a.fields[name].index], true;
    }

    /** stick/access.go:115-142: the instance changes only on success. */
    method Set(inst: Instance, name: string, value: Any) returns (r: Result<bool, string>)
      requires Valid() && inst.Valid()
      modifies this, inst
      ensures Valid() && inst.Valid()
      ensures var s := SetIn(Built(inst.typ, [Embedded]), old(inst.values), name, value);
        && (s.Err? ==> r == Err(s.error))
        && (s.Ok? ==> r == Ok(s.value.Some?))
        && (s.Ok? && s.value.Some? ==> inst.values == s.value.value)
        && (r != Ok(true) ==> inst.values == old(inst.values))
    {
      var a := GetAccessor(inst.typ);
      if name !in a.fields || a.fields[name].index >= |inst.values| {
        return Ok(false);
      }
      var f := a.fields[name];
      var v := value;
      if value.UntypedNil? && f.typ.pointer {
        v := Val(f.typ, Documents.Null);
      }
      if v.UntypedNil? {
        return Err(NoTypePanic);
      }
      if v.typ != f.typ {
        return Ok(false);
      }
      SetKeepsTypes(inst.typ, inst.values, name, value);
      inst.values := inst.values[f.index := v];
      return Ok(true);
    }

    /** stick/access.go:145-153: a get that fails panics. */
    method MustGet(inst: Instance, name: string) returns (r: Result<Any, string>)
      requires Valid()
      modifies this
      ensures Valid()
      ensures var g := GetIn(Built(inst.typ, [Embedded]), inst.values, name);
        && (g.Some? ==> r == Ok(g.value))
        && (g.None? ==> r == Err(GetPanic(name, Built(inst.typ, [Embedded]))))
    {
      var value, ok := Get(inst, name);
      if !ok {
        var a := GetAccessor(inst.typ);
        return Err(GetPanic(name, a));
      }
      return Ok(value);
    }

    /** stick/access.go:156-162: a set that fails panics. */
    method MustSet(inst: Instance, name: string, value: Any) returns (r: Result<(), string>)
      requires Valid() && inst.Valid()
      modifies this, inst
      ensures Valid() && inst.Valid()
      ensures var s := SetIn(Built(inst.typ, [Embedded]), old(inst.values), name, value);
        && (s.Err? ==> r == Err(s.error))
        && (s.Ok? && s.value.None? ==> r == Err(SetPanic(name, Built(inst.typ, [Embedded]))))
        && (s.Ok? && s.value.Some? ==> r == Ok(()) && inst.values == s.value.value)
        && (r.Err? ==> inst.values == old(inst.values))
    {
      var ok := Set(inst, name, value);
      if ok.Err? {
        return Err(ok.error);
      }
      if !ok.value {
        var a := GetAccessor(inst.typ);
        return Err(SetPanic(name, a));
      }
      return Ok(());
    }
  }
}
