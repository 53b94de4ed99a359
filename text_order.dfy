/** The byte-wise order of strings that Go's sort.Strings uses, and the
    sorted arrangement of a list of strings. Characters are compared by code
    point, which orders them as their UTF-8 encodings do. */
module TextOrder {

  /** `a` comes no later than `b`: a prefix comes first, otherwise the first
      differing character decides. */
  predicate Le(a: string, b: string)
    decreases |a|
  {
    a == [] || (b != [] && (a[0] < b[0] || (a[0] == b[0] && Le(a[1..], b[1..]))))
  }

  lemma {:induction false} LeTotal(a: string, b: string)
    ensures Le(a, b) || Le(b, a)
    decreases |a|
  {
    if a != [] && b != [] && a[0] == b[0] {
      LeTotal(a[1..], b[1..]);
    }
  }

  lemma {:induction false} LeAntisymmetric(a: string, b: string)
    requires Le(a, b) && Le(b, a)
    ensures a == b
    decreases |a|
  {
    if a != [] {
      LeAntisymmetric(a[1..], b[1..]);
      assert a == [a[0]] + a[1..] && b == [b[0]] + b[1..];
    }
  }

  lemma {:induction false} LeTransitive(a: string, b: string, c: string)
    requires Le(a, b) && Le(b, c)
    ensures Le(a, c)
    decreases |a|
  {
    if a != [] && a[0] == b[0] && b[0] == c[0] {
      LeTransitive(a[1..], b[1..], c[1..]);
    }
  }

  predicate Sorted(s: seq<string>) {
    forall i, j :: 0 <= i < j < |s| ==> Le(s[i], s[j])
  }

  /** A string no later than every element of a sorted list can lead it. */
  lemma ConsSorted(y: string, r: seq<string>)
    requires Sorted(r)
    requires forall k :: 0 <= k < |r| ==> Le(y, r[k])
    ensures Sorted([y] + r)
  {
    forall i, j | 0 <= i < j < |r| + 1
      ensures Le(([y] + r)[i], ([y] + r)[j])
    {
      assert ([y] + r)[j] == r[j - 1];
      if i > 0 {
        assert ([y] + r)[i] == r[i - 1];
      }
    }
  }

  /** `x` placed in front of the first element it comes before. */
  function Insert(x: string, s: seq<string>): (r: seq<string>)
    requires Sorted(s)
    ensures Sorted(r)
    ensures multiset(r) == multiset(s) + multiset{x}
    decreases |s|
  {
    if s == [] then [x]
    else if Le(x, s[0]) then
      assert forall k :: 0 <= k < |s| ==> Le(x, s[k]) by {
        forall k | 0 <= k < |s| ensures Le(x, s[k]) {
          if k > 0 {
            LeTransitive(x, s[0], s[k]);
          }
        }
      }
      ConsSorted(x, s);
      [x] + s
    else
      var rest := Insert(x, s[1..]);
      LeTotal(x, s[0]);
      assert s == [s[0]] + s[1..];
      assert forall k :: 0 <= k < |rest| ==> Le(s[0], rest[k]) by {
        forall k | 0 <= k < |rest| ensures Le(s[0], rest[k]) {
          assert rest[k] in multiset(rest);
          if rest[k] != x {
            assert rest[k] in multiset(s[1..]);
            var m :| 0 <= m < |s[1..]| && s[1..][m] == rest[k];
            assert s[m + 1] == rest[k];
          }
        }
      }
      ConsSorted(s[0], rest);
      [s[0]] + rest
  }

  /** The strings of `s` in ascending order. */
  function Sort(s: seq<string>): (r: seq<string>)
    ensures Sorted(r)
    ensures multiset(r) == multiset(s)
    decreases |s|
  {
    if s == [] then []
    else
      assert s == [s[0]] + s[1..];
      Insert(s[0], Sort(s[1..]))
  }

  /** There is only one sorted arrangement of a list of strings, so the
      order in which they were gathered does not matter. */
  lemma {:induction false} SortedUnique(a: seq<string>, b: seq<string>)
    requires Sorted(a) && Sorted(b) && multiset(a) == multiset(b)
    ensures a == b
    decreases |a|
  {
    if a != [] {
      assert |b| == |a| by { assert |multiset(a)| == |multiset(b)|; }
      HeadIsLeast(a, b[0]);
      HeadIsLeast(b, a[0]);
      LeAntisymmetric(a[0], b[0]);
      TailOf(a);
      TailOf(b);
      SortedUnique(a[1..], b[1..]);
    }
  }

  /** The first element of a sorted list comes no later than any of its
      elements. */
  lemma HeadIsLeast(s: seq<string>, y: string)
    requires Sorted(s) && y in multiset(s)
    ensures s != [] && Le(s[0], y)
  {
    var i :| 0 <= i < |s| && s[i] == y;
    if i == 0 {
      LeReflexive(y);
    }
  }

  lemma TailOf(s: seq<string>)
    requires Sorted(s) && s != []
    ensures Sorted(s[1..])
    ensures multiset(s[1..]) == multiset(s) - multiset{s[0]}
  {
    assert s == [s[0]] + s[1..];
  }

  /** Le is reflexive. */
  lemma {:induction false} LeReflexive(a: string)
    ensures Le(a, a)
    decreases |a|
  {
    if a != [] {
      LeReflexive(a[1..]);
    }
  }
}
