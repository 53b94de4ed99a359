/** The Graphviz rendering of a model catalog (coal/erd.go): one node per
    model in sorted name order, listing its fields, and one edge per to-one
    or to-many relationship in sorted order, drawn solid when the related
    model names it as the inverse of a has-one or has-many relationship.
    The printed name of a field's Go type comes from reflection and is a
    parameter here. */
module Erd {
  import opened Wrappers
  import opened ModelMeta
  import opened TextOrder

  /** The models of a catalog by name. */
  type Catalog = map<string, Meta>

  /** The printed Go type of a field. */
  type TypeNames = Field -> string

  /** An edge being prepared: its ends, whether each end is a "many" end,
      and whether the related model declares the inverse. */
  datatype Rel = Rel(from: string, to: string, srcMany: bool, dstMany: bool, hasInverse: bool)

  /** The edges prepared so far, by key, and their keys in the order they
      were added (a key repeats if two fields produce it). */
  datatype Rels = Rels(list: map<string, Rel>, keys: seq<string>)

  const NilDereference := "runtime error: invalid memory address or nil pointer dereference"

  const GraphStart := "digraph G {\n"
  const GraphEnd := "}\n"

  /** The graph header with its title. */
  function Preamble(title: string): (s: string)
    ensures |s| >= |GraphStart| && s[..|GraphStart|] == GraphStart
  {
    GraphStart
    + "  rankdir=\"LR\";\n"
    + "  ranksep=\"0.5\";\n"
    + "  nodesep=\"0.4\";\n"
    + "  pad=\"0.4,0.4\";\n"
    + "  margin=\"0,0\";\n"
    + "  concentrate=\"true\";\n"
    + "  labelloc=\"t\";\n"
    + "  fontsize=\"13\";\n"
    + "  fontname=\"Arial BoldMT\";\n"
    + "  splines=\"spline\";\n"
    + "  label=\"" + title + "\";\n"
  }

  /** The table row of one field: its name as port and label, then its type. */
  const RowStart := "<tr><td align=\"left\" width=\"130\" port=\""
  const TypeStart := "<font face=\"Arial ItalicMT\" color=\"grey60\"> "

  function Row(f: Field, types: TypeNames): string {
    RowStart + f.name + "\">" + f.name + TypeStart + types(f) + "</font></td></tr>"
  }

  function Rows(fs: seq<Field>, types: TypeNames): string
    decreases |fs|
  {
    if fs == [] then "" else Row(fs[0], types) + Rows(fs[1..], types)
  }

  const HeadTableStart := "<<table border=\"0\" align=\"center\" cellspacing=\"0.5\" cellpadding=\"0\" width=\"134\"><tr><td align=\"center\" valign=\"bottom\" width=\"130\"><font face=\"Arial BoldMT\" point-size=\"11\">"
  const HeadTableEnd := "</font></td></tr></table>|"
  const TailTableStart := "<table border=\"0\" align=\"left\" cellspacing=\"2\" cellpadding=\"0\" width=\"134\">"

  function NodeHead(title: string): string {
    "  \"" + title + "\" [ label=" + HeadTableStart + title + HeadTableEnd + TailTableStart
  }

  const NodeTail := "</table>>" + ", shape=Mrecord, fontsize=10, fontname=\"ArialMT\", margin=\"0.07,0.05\", penwidth=\"1.0\" ];\n"

  /** The node of a model, labelled with the model's own name. */
  function Node(m: Meta, types: TypeNames): string {
    NodeHead(m.name) + Rows(m.fields, types) + NodeTail
  }

  predicate Listed(c: Catalog, names: seq<string>) {
    forall i :: 0 <= i < |names| ==> names[i] in c
  }

  function Nodes(c: Catalog, names: seq<string>, types: TypeNames): string
    requires Listed(c, names)
    decreases |names|
  {
    if names == [] then "" else Node(c[names[0]], types) + Nodes(c, names[1..], types)
  }

  /** Some enumeration of a set of names. */
  ghost function Enumerate(s: set<string>): (r: seq<string>)
    ensures multiset(r) == multiset(s)
    decreases |s|
  {
    if s == {} then []
    else
      var x :| x in s;
      var rest := Enumerate(s - {x});
      assert multiset(s) == multiset{x} + multiset(s - {x});
      [x] + rest
  }

  /** The names of the catalog's models, sorted. */
  ghost function Names(c: Catalog): (r: seq<string>)
    ensures Sorted(r) && multiset(r) == multiset(c.Keys)
    ensures Listed(c, r)
  {
    var r := Sort(Enumerate(c.Keys));
    assert forall i :: 0 <= i < |r| ==> r[i] in multiset(c.Keys) by {
      forall i | 0 <= i < |r| ensures r[i] in multiset(c.Keys) {
        assert r[i] in multiset(r);
      }
    }
    r
  }

  /** Every field of the listed models, model by model, with its model's name. */
  function Flat(c: Catalog, names: seq<string>): seq<(string, Field)>
    requires Listed(c, names)
    decreases |names|
  {
    if names == [] then [] else Pairs(names[0], c[names[0]].fields) + Flat(c, names[1..])
  }

  function Pairs(name: string, fs: seq<Field>): (r: seq<(string, Field)>)
    ensures |r| == |fs|
    decreases |fs|
  {
    if fs == [] then [] else [(name, fs[0])] + Pairs(name, fs[1..])
  }

  /** A to-one or to-many relationship draws an edge under its key. */
  predicate Direct(p: (string, Field)) {
    p.1.relName != "" && p.1.card.Stored()
  }

  function DirectKey(p: (string, Field)): string {
    p.0 + "-" + p.1.relName
  }

  /** A has-one or has-many relationship marks the edge of its inverse. */
  predicate Indirect(p: (string, Field)) {
    p.1.relName != "" && p.1.card.Virtual()
  }

  function InverseKey(p: (string, Field)): string {
    p.1.relType + "-" + p.1.relInverse
  }

  predicate KeysListed(st: Rels) {
    forall i :: 0 <= i < |st.keys| ==> st.keys[i] in st.list
  }

  /** The first pass: every direct relationship adds a fresh edge, replacing
      any earlier one of the same key. */
  function AddDirect(st: Rels, ps: seq<(string, Field)>): (r: Rels)
    requires KeysListed(st)
    ensures KeysListed(r)
    decreases |ps|
  {
    if ps == [] then st
    else if Direct(ps[0]) then
      var k := DirectKey(ps[0]);
      AddDirect(Rels(st.list[k := Rel(ps[0].0, ps[0].1.relType, ps[0].1.card.ToMany?, false, false)], st.keys + [k]), ps[1..])
    else AddDirect(st, ps[1..])
  }

  /** The second pass: every indirect relationship marks the edge of its
      inverse key; a key with no edge is a nil dereference. */
  function MarkInverses(list: map<string, Rel>, ps: seq<(string, Field)>): Option<map<string, Rel>>
    decreases |ps|
  {
    if ps == [] then Some(list)
    else if Indirect(ps[0]) then
      var k := InverseKey(ps[0]);
      if k !in list then None
      else MarkInverses(list[k := list[k].(dstMany := ps[0].1.card.HasMany?, hasInverse := true)], ps[1..])
    else MarkInverses(list, ps[1..])
  }

  /** The label of a model; a name outside the catalog labels as "". */
  function Label(c: Catalog, name: string): string {
    if name in c then c[name].name else ""
  }

  function Style(r: Rel): string { if r.hasInverse then "solid" else "dotted" }
  function ArrowHead(r: Rel): string { if r.dstMany then "normal" else "none" }
  function ArrowTail(r: Rel): string { if r.srcMany then "normal" else "none" }

  const EdgeAttributes := "\"[ fontname=\"ArialMT\", fontsize=7, dir=both, arrowsize=\"0.9\", penwidth=\"0.9\", labelangle=32, labeldistance=\"1.8\", style="

  function Edge(c: Catalog, r: Rel): string {
    "  \"" + Label(c, r.from) + "\"->\"" + Label(c, r.to) + EdgeAttributes
    + Style(r) + ", arrowhead=" + ArrowHead(r) + ", arrowtail=" + ArrowTail(r) + " ];\n"
  }

  predicate Within(keys: seq<string>, list: map<string, Rel>) {
    forall i :: 0 <= i < |keys| ==> keys[i] in list
  }

  function Edges(c: Catalog, list: map<string, Rel>, keys: seq<string>): string
    requires Within(keys, list)
    decreases |keys|
  {
    if keys == [] then "" else Edge(c, list[keys[0]]) + Edges(c, list, keys[1..])
  }

  /** The keys of the first pass, sorted, lie within the marked edges. */
  lemma SortedWithin(st: Rels, list: map<string, Rel>)
    requires KeysListed(st) && list.Keys == st.list.Keys
    ensures Within(Sort(st.keys), list)
  {
    var s := Sort(st.keys);
    forall i | 0 <= i < |s| ensures s[i] in list {
      assert s[i] in multiset(s);
    }
  }

  /** The document for the models in the order `names`. */
  function Render(c: Catalog, title: string, types: TypeNames, names: seq<string>): (r: Result<string, string>)
    requires Listed(c, names)
    ensures r.Ok? ==> |r.value| >= |GraphStart| + |GraphEnd|
    ensures r.Ok? ==> r.value[..|GraphStart|] == GraphStart && r.value[|r.value| - |GraphEnd|..] == GraphEnd
  {
    var ps := Flat(c, names);
    var st := AddDirect(Rels(map[], []), ps);
    match MarkInverses(st.list, ps)
    case None => Err(NilDereference)
    case Some(list) =>
      MarkKeepsKeys(st.list, ps);
      SortedWithin(st, list);
      var body := Nodes(c, names, types) + Edges(c, list, Sort(st.keys));
      Framed(Preamble(title), body);
      Ok(Preamble(title) + body + GraphEnd)
  }

  /** A document made of a header that opens the graph, a body and the
      closing brace opens and closes the graph. */
  lemma Framed(head: string, body: string)
    requires |head| >= |GraphStart| && head[..|GraphStart|] == GraphStart
    ensures var out := head + body + GraphEnd;
      && |out| >= |GraphStart| + |GraphEnd|
      && out[..|GraphStart|] == GraphStart && out[|out| - |GraphEnd|..] == GraphEnd
  {
    var out := head + body + GraphEnd;
    assert out[..|GraphStart|] == head[..|GraphStart|];
    assert out[|out| - |GraphEnd|..] == GraphEnd;
  }

  /** coal/erd.go:11-143, as the sorted model names determine it. */
  ghost function Dot(c: Catalog, title: string, types: TypeNames): Result<string, string> {
    Render(c, title, types, Names(c))
  }

  /** The second pass changes no key and no end of an edge. */
  lemma {:induction false} MarkKeepsKeys(list: map<string, Rel>, ps: seq<(string, Field)>)
    ensures MarkInverses(list, ps).Some? ==>
      var out := MarkInverses(list, ps).value;
      && out.Keys == list.Keys
      && forall k :: k in list ==> out[k].from == list[k].from && out[k].to == list[k].to && out[k].srcMany == list[k].srcMany
    decreases |ps|
  {
    if ps != [] {
      if Indirect(ps[0]) && InverseKey(ps[0]) in list {
        var k := InverseKey(ps[0]);
        MarkKeepsKeys(list[k := list[k].(dstMany := ps[0].1.card.HasMany?, hasInverse := true)], ps[1..]);
      } else if !Indirect(ps[0]) {
        MarkKeepsKeys(list, ps[1..]);
      }
    }
  }

  /** The second pass fails exactly when some has-one or has-many names an
      inverse for which the first pass drew no edge. */
  lemma {:induction false} MarkFails(list: map<string, Rel>, ps: seq<(string, Field)>)
    ensures MarkInverses(list, ps).None? <==> exists i :: 0 <= i < |ps| && Indirect(ps[i]) && InverseKey(ps[i]) !in list
    decreases |ps|
  {
    if ps != [] {
      if Indirect(ps[0]) && InverseKey(ps[0]) in list {
        var k := InverseKey(ps[0]);
        MarkFails(list[k := list[k].(dstMany := ps[0].1.card.HasMany?, hasInverse := true)], ps[1..]);
      } else if !Indirect(ps[0]) {
        MarkFails(list, ps[1..]);
      }
      if exists i :: 0 <= i < |ps[1..]| && Indirect(ps[1..][i]) && InverseKey(ps[1..][i]) !in list {
        var i :| 0 <= i < |ps[1..]| && Indirect(ps[1..][i]) && InverseKey(ps[1..][i]) !in list;
        assert ps[i + 1] == ps[1..][i];
      }
      if exists i :: 0 <= i < |ps| && Indirect(ps[i]) && InverseKey(ps[i]) !in list {
        var i :| 0 <= i < |ps| && Indirect(ps[i]) && InverseKey(ps[i]) !in list;
        if i > 0 {
          assert ps[1..][i - 1] == ps[i];
        }
      }
    }
  }

  /** An edge is marked as having an inverse exactly when it had one or some
      has-one or has-many names it as its inverse; its head is a "many" end
      only when it was or some has-many names it, and an inverse that is
      not a "many" end comes from a has-one. */
  lemma {:induction false} MarkedInverses(list: map<string, Rel>, ps: seq<(string, Field)>, k: string)
    requires k in list
    requires MarkInverses(list, ps).Some?
    ensures k in MarkInverses(list, ps).value
    ensures MarkInverses(list, ps).value[k].hasInverse <==>
      list[k].hasInverse || exists i :: 0 <= i < |ps| && Indirect(ps[i]) && InverseKey(ps[i]) == k
    ensures MarkInverses(list, ps).value[k].dstMany ==>
      list[k].dstMany || exists i :: 0 <= i < |ps| && Indirect(ps[i]) && InverseKey(ps[i]) == k && ps[i].1.card.HasMany?
    ensures MarkInverses(list, ps).value[k].hasInverse && !MarkInverses(list, ps).value[k].dstMany ==>
      (list[k].hasInverse && !list[k].dstMany) || exists i :: 0 <= i < |ps| && Indirect(ps[i]) && InverseKey(ps[i]) == k && ps[i].1.card.HasOne?
    decreases |ps|
  {
    if ps != [] {
      var next := if Indirect(ps[0]) then list[InverseKey(ps[0]) := list[InverseKey(ps[0])].(dstMany := ps[0].1.card.HasMany?, hasInverse := true)] else list;
      assert MarkInverses(list, ps) == MarkInverses(next, ps[1..]);
      MarkedInverses(next, ps[1..], k);
      forall i | 0 <= i < |ps[1..]| ensures ps[1..][i] == ps[i + 1] { }
      if Indirect(ps[0]) && InverseKey(ps[0]) == k {
        assert Indirect(ps[0]) && InverseKey(ps[0]) == k;
      }
    }
  }

  /** How many fields draw an edge. */
  function CountDirect(ps: seq<(string, Field)>): nat
    decreases |ps|
  {
    if ps == [] then 0 else (if Direct(ps[0]) then 1 else 0) + CountDirect(ps[1..])
  }

  /** One edge per direct relationship: the first pass adds one key per
      to-one or to-many field, each the field's own key, in field order. */
  lemma {:induction false} OneKeyPerField(st: Rels, ps: seq<(string, Field)>)
    requires KeysListed(st)
    ensures |AddDirect(st, ps).keys| == |st.keys| + CountDirect(ps)
    ensures AddDirect(st, ps).keys[..|st.keys|] == st.keys
    ensures forall i :: 0 <= i < |ps| && Direct(ps[i]) ==> DirectKey(ps[i]) in AddDirect(st, ps).keys
    decreases |ps|
  {
    if ps != [] {
      if Direct(ps[0]) {
        var k := DirectKey(ps[0]);
        var next := Rels(st.list[k := Rel(ps[0].0, ps[0].1.relType, ps[0].1.card.ToMany?, false, false)], st.keys + [k]);
        OneKeyPerField(next, ps[1..]);
        var r := AddDirect(next, ps[1..]);
        assert r.keys[..|st.keys|] == next.keys[..|next.keys|][..|st.keys|];
        assert r.keys[|st.keys|] == k;
      } else {
        OneKeyPerField(st, ps[1..]);
      }
      forall i | 0 <= i < |ps| && Direct(ps[i]) ensures DirectKey(ps[i]) in AddDirect(st, ps).keys {
        if i > 0 {
          assert ps[1..][i - 1] == ps[i];
        }
      }
    }
  }

  lemma {:induction false} AddDirectAppend(st: Rels, a: seq<(string, Field)>, b: seq<(string, Field)>)
    requires KeysListed(st)
    ensures AddDirect(st, a + b) == AddDirect(AddDirect(st, a), b)
    decreases |a|
  {
    if a == [] {
      assert a + b == b;
    } else {
      assert (a + b)[0] == a[0] && (a + b)[1..] == a[1..] + b;
      if Direct(a[0]) {
        var k := DirectKey(a[0]);
        AddDirectAppend(Rels(st.list[k := Rel(a[0].0, a[0].1.relType, a[0].1.card.ToMany?, false, false)], st.keys + [k]), a[1..], b);
      } else {
        AddDirectAppend(st, a[1..], b);
      }
    }
  }

  lemma {:induction false} MarkAppend(list: map<string, Rel>, a: seq<(string, Field)>, b: seq<(string, Field)>)
    ensures MarkInverses(list, a + b) == match MarkInverses(list, a) { case None => None case Some(l) => MarkInverses(l, b) }
    decreases |a|
  {
    if a == [] {
      assert a + b == b;
    } else {
      assert (a + b)[0] == a[0] && (a + b)[1..] == a[1..] + b;
      if Indirect(a[0]) && InverseKey(a[0]) in list {
        var k := InverseKey(a[0]);
        MarkAppend(list[k := list[k].(dstMany := a[0].1.card.HasMany?, hasInverse := true)], a[1..], b);
      } else if !Indirect(a[0]) {
        MarkAppend(list, a[1..], b);
      }
    }
  }

  lemma FlatStep(c: Catalog, names: seq<string>, i: nat)
    requires Listed(c, names) && i < |names|
    ensures Listed(c, names[i..]) && Listed(c, names[i + 1..])
    ensures Flat(c, names[i..]) == Pairs(names[i], c[names[i]].fields) + Flat(c, names[i + 1..])
  {
    assert names[i..][0] == names[i] && names[i..][1..] == names[i + 1..];
  }

  lemma PairsStep(name: string, fs: seq<Field>, j: nat)
    requires j < |fs|
    ensures Pairs(name, fs[j..]) == [(name, fs[j])] + Pairs(name, fs[j + 1..])
  {
    assert fs[j..][0] == fs[j] && fs[j..][1..] == fs[j + 1..];
  }

  lemma Assoc(a: string, b: string, c: string)
    ensures (a + b) + c == a + (b + c)
  {
  }

  /** Writes the rows of a model's fields one by one. */
  method WriteRows(out0: string, fs: seq<Field>, types: TypeNames) returns (out: string)
    ensures out == out0 + Rows(fs, types)
  {
    out := out0;
    var j := 0;
    while j < |fs|
      invariant 0 <= j <= |fs|
      invariant out + Rows(fs[j..], types) == out0 + Rows(fs, types)
    {
      assert fs[j..][0] == fs[j] && fs[j..][1..] == fs[j + 1..];
      out := out + Row(fs[j], types);
      j := j + 1;
    }
    assert fs[j..] == [];
  }

  /** Writes the node of one model: its head, its rows, its tail. */
  method WriteNode(out0: string, m: Meta, types: TypeNames) returns (out: string)
    ensures out == out0 + Node(m, types)
  {
    out := out0 + NodeHead(m.name);
    out := WriteRows(out, m.fields, types);
    Assoc(out0, NodeHead(m.name), Rows(m.fields, types));
    Assoc(out0, NodeHead(m.name) + Rows(m.fields, types), NodeTail);
    out := out + NodeTail;
  }

  /** Writes the node of every model in the order of `names`. */
  method WriteNodes(out0: string, c: Catalog, names: seq<string>, types: TypeNames) returns (out: string)
    requires Listed(c, names)
    ensures out == out0 + Nodes(c, names, types)
  {
    out := out0;
    var i := 0;
    while i < |names|
      invariant 0 <= i <= |names|
      invariant out + Nodes(c, names[i..], types) == out0 + Nodes(c, names, types)
    {
      NodesStep(c, names, i, types);
      Assoc(out, Node(c[names[i]], types), Nodes(c, names[i + 1..], types));
      out := WriteNode(out, c[names[i]], types);
      i := i + 1;
    }
    assert names[i..] == [];
  }

  lemma NodesStep(c: Catalog, names: seq<string>, i: nat, types: TypeNames)
    requires Listed(c, names) && i < |names|
    ensures Nodes(c, names[i..], types) == Node(c[names[i]], types) + Nodes(c, names[i + 1..], types)
  {
    assert names[i..][0] == names[i] && names[i..][1..] == names[i + 1..];
  }

  /** The first pass over the fields of one model. */
  method DirectOf(st0: Rels, name: string, fs: seq<Field>) returns (st: Rels)
    requires KeysListed(st0)
    ensures KeysListed(st) && st == AddDirect(st0, Pairs(name, fs))
  {
    st := st0;
    var j := 0;
    while j < |fs|
      invariant 0 <= j <= |fs|
      invariant KeysListed(st)
      invariant AddDirect(st0, Pairs(name, fs)) == AddDirect(st, Pairs(name, fs[j..]))
    {
      PairsStep(name, fs, j);
      var f := fs[j];
      if f.relName != "" && (f.card.ToOne? || f.card.ToMany?) {
        var k := name + "-" + f.relName;
        st := Rels(st.list[k := Rel(name, f.relType, f.card.ToMany?, false, false)], st.keys + [k]);
      }
      j := j + 1;
    }
    assert fs[j..] == [];
  }

  /** The second pass over the fields of one model; None where the source
      dereferences a missing edge. */
  method InversesOf(list0: map<string, Rel>, name: string, fs: seq<Field>) returns (list: Option<map<string, Rel>>)
    ensures list == MarkInverses(list0, Pairs(name, fs))
  {
    var cur := list0;
    var j := 0;
    while j < |fs|
      invariant 0 <= j <= |fs|
      invariant MarkInverses(list0, Pairs(name, fs)) == MarkInverses(cur, Pairs(name, fs[j..]))
    {
      PairsStep(name, fs, j);
      var f := fs[j];
      if f.relName != "" && (f.card.HasOne? || f.card.HasMany?) {
        var k := f.relType + "-" + f.relInverse;
        if k !in cur {
          return None;
        }
        cur := cur[k := cur[k].(dstMany := f.card.HasMany?, hasInverse := true)];
      }
      j := j + 1;
    }
    assert fs[j..] == [];
    return Some(cur);
  }

  /** Gathers the names of the models in map order and sorts them. */
  method SortedNames(c: Catalog) returns (names: seq<string>)
    ensures names == Names(c)
  {
    var gathered: seq<string> := [];
    var rest := c.Keys;
    while rest != {}
      invariant rest <= c.Keys
      invariant multiset(gathered) + multiset(rest) == multiset(c.Keys)
      decreases |rest|
    {
      var n :| n in rest;
      assert multiset(rest) == multiset(rest - {n}) + multiset{n};
      gathered := gathered + [n];
      rest := rest - {n};
    }
    names := Sort(gathered);
    SortedUnique(names, Names(c));
  }

  /** coal/erd.go:11-143: writes the header, the nodes, then prepares the
      edges in two passes and writes them in sorted key order. */
  method Visualize(c: Catalog, title: string, types: TypeNames) returns (r: Result<string, string>)
    ensures r == Dot(c, title, types)
  {
    var out := Preamble(title);
    var names := SortedNames(c);
    out := WriteNodes(out, c, names, types);
    ghost var ps := Flat(c, names);
    var st := CollectDirect(c, names);
    var marked := MarkAll(c, names, st.list);
    if marked.None? {
      return Err(NilDereference);
    }
    var list := marked.value;
    MarkKeepsKeys(st.list, ps);
    SortedWithin(st, list);
    var keys := Sort(st.keys);
    out := WriteEdges(out, c, list, keys);
    Assoc(Preamble(title), Nodes(c, names, types), Edges(c, list, keys));
    out := out + GraphEnd;
    return Ok(out);
  }

  /** The first pass over every model, in the order of `names`. */
  method CollectDirect(c: Catalog, names: seq<string>) returns (st: Rels)
    requires Listed(c, names)
    ensures KeysListed(st) && st == AddDirect(Rels(map[], []), Flat(c, names))
  {
    st := Rels(map[], []);
    var i := 0;
    while i < |names|
      invariant 0 <= i <= |names|
      invariant KeysListed(st)
      invariant AddDirect(Rels(map[], []), Flat(c, names)) == AddDirect(st, Flat(c, names[i..]))
    {
      FlatStep(c, names, i);
      AddDirectAppend(st, Pairs(names[i], c[names[i]].fields), Flat(c, names[i + 1..]));
      st := DirectOf(st, names[i], c[names[i]].fields);
      i := i + 1;
    }
    assert names[i..] == [];
  }

  /** The second pass over every model, in the order of `names`. */
  method MarkAll(c: Catalog, names: seq<string>, list0: map<string, Rel>) returns (r: Option<map<string, Rel>>)
    requires Listed(c, names)
    ensures r == MarkInverses(list0, Flat(c, names))
  {
    var list := list0;
    var i := 0;
    while i < |names|
      invariant 0 <= i <= |names|
      invariant MarkInverses(list0, Flat(c, names)) == MarkInverses(list, Flat(c, names[i..]))
    {
      FlatStep(c, names, i);
      MarkAppend(list, Pairs(names[i], c[names[i]].fields), Flat(c, names[i + 1..]));
      var marked := InversesOf(list, names[i], c[names[i]].fields);
      if marked.None? {
        return None;
      }
      list := marked.value;
      i := i + 1;
    }
    assert names[i..] == [];
    return Some(list);
  }

  /** Writes the edges in the order of `keys`. */
  method WriteEdges(out0: string, c: Catalog, list: map<string, Rel>, keys: seq<string>) returns (out: string)
    requires Within(keys, list)
    ensures out == out0 + Edges(c, list, keys)
  {
    out := out0;
    var i := 0;
    while i < |keys|
      invariant 0 <= i <= |keys|
      invariant out + Edges(c, list, keys[i..]) == out0 + Edges(c, list, keys)
    {
      EdgesStep(c, list, keys, i);
      Assoc(out, Edge(c, list[keys[i]]), Edges(c, list, keys[i + 1..]));
      out := out + Edge(c, list[keys[i]]);
      i := i + 1;
    }
    assert keys[i..] == [];
  }

  lemma EdgesStep(c: Catalog, list: map<string, Rel>, keys: seq<string>, i: nat)
    requires Within(keys, list) && i < |keys|
    ensures Within(keys[i + 1..], list)
    ensures Edges(c, list, keys[i..]) == Edge(c, list[keys[i]]) + Edges(c, list, keys[i + 1..])
  {
    assert keys[i..][0] == keys[i] && keys[i..][1..] == keys[i + 1..];
  }
}
