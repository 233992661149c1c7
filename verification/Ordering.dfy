/** The order in which metadata keys are sorted, and the unique sorted listing of a key set.
    Code-point order on strings is the byte order of their UTF-8 encodings. */
module Ordering {

  predicate Le(a: string, b: string) {
    a == [] || (b != [] && (a[0] < b[0] || (a[0] == b[0] && Le(a[1..], b[1..]))))
  }

  lemma {:induction false} LeTotal(a: string, b: string)
    ensures Le(a, b) || Le(b, a)
  {
    if a != [] && b != [] && a[0] == b[0] {
      LeTotal(a[1..], b[1..]);
    }
  }

  lemma {:induction false} LeAntisymmetric(a: string, b: string)
    requires Le(a, b) && Le(b, a)
    ensures a == b
  {
    if a != [] {
      LeAntisymmetric(a[1..], b[1..]);
      assert a == [a[0]] + a[1..] && b == [b[0]] + b[1..];
    }
  }

  lemma {:induction false} LeTransitive(a: string, b: string, c: string)
    requires Le(a, b) && Le(b, c)
    ensures Le(a, c)
  {
    if a != [] && a[0] == b[0] == c[0] {
      LeTransitive(a[1..], b[1..], c[1..]);
    }
  }

  predicate Least(k: string, keys: set<string>) {
    k in keys && forall j :: j in keys ==> Le(k, j)
  }

  lemma {:induction false} LeastExists(keys: set<string>)
    requires keys != {}
    ensures exists k :: Least(k, keys)
    ensures forall a, b :: Least(a, keys) && Least(b, keys) ==> a == b
  {
    forall a, b | Least(a, keys) && Least(b, keys)
      ensures a == b
    {
      LeAntisymmetric(a, b);
    }
    var x :| x in keys;
    LeTotal(x, x);
    var rest := keys - {x};
    if rest == {} {
      assert keys == {x};
      assert Least(x, keys);
    } else {
      LeastExists(rest);
      var y :| Least(y, rest);
      LeTotal(x, y);
      var k := if Le(x, y) then x else y;
      forall j | j in keys
        ensures Le(k, j)
      {
        if j != x && k == x {
          LeTransitive(x, y, j);
        }
      }
      assert Least(k, keys);
    }
  }

  /** The keys of a set, least first. */
  function SortedKeys(keys: set<string>): (r: seq<string>)
    ensures forall k :: k in r <==> k in keys
    ensures |r| == |keys|
  {
    if keys == {} then []
    else
      LeastExists(keys);
      var k :| Least(k, keys);
      [k] + SortedKeys(keys - {k})
  }

  ghost predicate Sorted(s: seq<string>) {
    forall i, j :: 0 <= i < j < |s| ==> Le(s[i], s[j])
  }

  ghost predicate Distinct(s: seq<string>) {
    forall i, j :: 0 <= i < j < |s| ==> s[i] != s[j]
  }

  ghost predicate Lists(s: seq<string>, keys: set<string>) {
    forall k :: k in s <==> k in keys
  }

  lemma FirstIsLeast(s: seq<string>, keys: set<string>)
    requires Sorted(s) && Lists(s, keys) && s != []
    ensures Least(s[0], keys)
  {
    LeTotal(s[0], s[0]);
    assert s[0] in s;
    forall j | j in keys
      ensures Le(s[0], j)
    {
      assert j in s;
    }
  }

  lemma RestLists(s: seq<string>, keys: set<string>)
    requires Distinct(s) && Lists(s, keys) && s != []
    ensures Lists(s[1..], keys - {s[0]})
  {
    forall k
      ensures k in s[1..] <==> k in keys - {s[0]}
    {
      if k in s[1..] {
        var i :| 0 <= i < |s[1..]| && s[1..][i] == k;
        assert s[i + 1] == k && k in s;
      }
      if k in keys - {s[0]} {
        assert k in s;
      }
    }
  }

  /** A sorted listing without repetition of a key set is `SortedKeys` of it, whatever
      order the keys were collected in. */
  lemma {:induction false} SortedListingIsUnique(s: seq<string>, keys: set<string>)
    requires Sorted(s) && Distinct(s) && Lists(s, keys)
    ensures s == SortedKeys(keys)
  {
    if s == [] {
      assert keys == {};
    } else {
      assert s[0] in s;
      FirstIsLeast(s, keys);
      LeastExists(keys);
      RestLists(s, keys);
      SortedListingIsUnique(s[1..], keys - {s[0]});
    }
  }

  function Swapped(s: seq<string>, i: nat, j: nat): seq<string>
    requires i < |s| && j < |s|
  {
    s[i := s[j]][j := s[i]]
  }

  lemma SwapPermutes(s: seq<string>, i: nat, j: nat)
    requires i < |s| && j < |s|
    ensures multiset(Swapped(s, i, j)) == multiset(s)
  {
  }

  /** The first `i` are in place: sorted, and below everything after them. */
  ghost predicate Placed(s: seq<string>, i: nat) {
    forall p, q :: 0 <= p < q < |s| && p < i ==> Le(s[p], s[q])
  }

  lemma SwapPlaces(s: seq<string>, i: nat, m: nat)
    requires Placed(s, i) && i <= m < |s| && forall q :: i <= q < |s| ==> Le(s[m], s[q])
    ensures Placed(Swapped(s, i, m), i + 1)
  {
    var t := Swapped(s, i, m);
    forall p, q | 0 <= p < q < |t| && p < i + 1
      ensures Le(t[p], t[q])
    {
      if p < i {
        assert t[p] == s[p] && t[q] == s[if q == i then m else if q == m then i else q];
      } else {
        assert t[p] == s[m] && t[q] == s[if q == m then i else q];
      }
    }
  }

  /** In-place sort by selection of the least remaining string. */
  method SortStrings(a: array<string>)
    modifies a
    ensures Sorted(a[..])
    ensures multiset(a[..]) == multiset(old(a[..]))
  {
    var i := 0;
    while i < a.Length
      invariant 0 <= i <= a.Length
      invariant Placed(a[..], i)
      invariant multiset(a[..]) == multiset(old(a[..]))
    {
      var m := LeastIndex(a, i);
      ghost var before := a[..];
      SwapPlaces(before, i, m);
      SwapPermutes(before, i, m);
      a[i], a[m] := a[m], a[i];
      assert a[..] == Swapped(before, i, m);
      i := i + 1;
    }
  }

  method LeastIndex(a: array<string>, i: nat) returns (m: nat)
    requires i < a.Length
    ensures i <= m < a.Length
    ensures forall q :: i <= q < a.Length ==> Le(a[m], a[q])
  {
    m := i;
    LeTotal(a[i], a[i]);
    var j := i + 1;
    while j < a.Length
      invariant i <= m < j <= a.Length
      invariant forall q :: i <= q < j ==> Le(a[m], a[q])
    {
      LeTotal(a[m], a[j]);
      LeTotal(a[j], a[j]);
      if !Le(a[m], a[j]) {
        forall q | i <= q < j
          ensures Le(a[j], a[q])
        {
          LeTransitive(a[j], a[m], a[q]);
        }
        m := j;
      }
      j := j + 1;
    }
  }
}
