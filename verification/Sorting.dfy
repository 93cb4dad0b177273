/** Sorting by a strict order. The library sorts of Ruby and Python are represented by the one list they can return. */
module Sorting {

  /** less is irreflexive and transitive on dom and compares any two different elements of it. */
  ghost predicate StrictOrder<T(!new)>(less: (T, T) -> bool, dom: set<T>) {
    (forall x :: x in dom ==> !less(x, x)) &&
    (forall x, y, z :: x in dom && y in dom && z in dom && less(x, y) && less(y, z) ==> less(x, z)) &&
    (forall x, y :: x in dom && y in dom && x != y ==> less(x, y) || less(y, x))
  }

  ghost function Elements<T(!new)>(s: seq<T>): set<T> {
    set x | x in s
  }

  ghost predicate Distinct<T>(s: seq<T>) {
    forall i, j :: 0 <= i < j < |s| ==> s[i] != s[j]
  }

  /** Strictly ascending, hence free of duplicates. */
  ghost predicate SortedBy<T>(less: (T, T) -> bool, s: seq<T>) {
    forall i, j :: 0 <= i < j < |s| ==> less(s[i], s[j])
  }

  /** Where x belongs in a sorted list: before the first element it is less than. */
  function Place<T>(less: (T, T) -> bool, x: T, s: seq<T>): (k: nat)
    ensures k <= |s|
    ensures forall i :: 0 <= i < k ==> !less(x, s[i])
    ensures k < |s| ==> less(x, s[k])
  {
    if s == [] || less(x, s[0]) then 0 else 1 + Place(less, x, s[1..])
  }

  function InsertSorted<T>(less: (T, T) -> bool, x: T, s: seq<T>): (r: seq<T>)
    ensures multiset(r) == multiset(s) + multiset{x}
  {
    var k := Place(less, x, s);
    assert s == s[..k] + s[k..];
    s[..k] + [x] + s[k..]
  }

  function Sort<T>(less: (T, T) -> bool, s: seq<T>): (r: seq<T>)
    ensures multiset(r) == multiset(s)
  {
    if s == [] then []
    else
      assert s == [s[0]] + s[1..];
      InsertSorted(less, s[0], Sort(less, s[1..]))
  }

  lemma {:induction false} SameElements<T(!new)>(a: seq<T>, b: seq<T>)
    requires multiset(a) == multiset(b)
    ensures |a| == |b| && Elements(a) == Elements(b)
  {
    assert |multiset(a)| == |multiset(b)|;
    assert forall x :: x in a <==> x in multiset(a);
    assert forall x :: x in b <==> x in multiset(b);
  }

  lemma {:induction false} PlaceSplits<T(!new)>(less: (T, T) -> bool, dom: set<T>, x: T, s: seq<T>)
    requires StrictOrder(less, dom) && x in dom && Elements(s) <= dom && x !in s && SortedBy(less, s)
    ensures forall i :: 0 <= i < Place(less, x, s) ==> less(s[i], x)
    ensures forall i :: Place(less, x, s) <= i < |s| ==> less(x, s[i])
  {
    var k := Place(less, x, s);
    forall i | 0 <= i < k ensures less(s[i], x) {
      assert s[i] in Elements(s);
    }
    forall i | k <= i < |s| ensures less(x, s[i]) {
      assert s[i] in Elements(s) && s[k] in Elements(s);
      assert i == k || less(s[k], s[i]);
    }
  }

  lemma {:induction false} InsertKeepsSorted<T(!new)>(less: (T, T) -> bool, dom: set<T>, x: T, s: seq<T>)
    requires StrictOrder(less, dom) && x in dom && Elements(s) <= dom && x !in s && SortedBy(less, s)
    ensures SortedBy(less, InsertSorted(less, x, s))
  {
    PlaceSplits(less, dom, x, s);
  }

  lemma {:induction false} SortSorts<T(!new)>(less: (T, T) -> bool, dom: set<T>, s: seq<T>)
    requires StrictOrder(less, dom) && Elements(s) <= dom && Distinct(s)
    ensures SortedBy(less, Sort(less, s))
  {
    if s != [] {
      var tail := s[1..];
      assert Elements(tail) <= Elements(s) && s[0] in Elements(s);
      SortSorts(less, dom, tail);
      SameElements(tail, Sort(less, tail));
      assert s[0] !in tail;
      assert s[0] !in Elements(Sort(less, tail));
      InsertKeepsSorted(less, dom, s[0], Sort(less, tail));
    }
  }

  lemma {:induction false} HeadsAgree<T(!new)>(less: (T, T) -> bool, dom: set<T>, a: seq<T>, b: seq<T>)
    requires StrictOrder(less, dom) && Elements(a) <= dom && a != [] && b != []
    requires SortedBy(less, a) && SortedBy(less, b) && Elements(a) == Elements(b)
    ensures a[0] == b[0]
  {
    assert a[0] in Elements(b) && b[0] in Elements(a);
    var i :| 0 <= i < |b| && b[i] == a[0];
    var j :| 0 <= j < |a| && a[j] == b[0];
  }

  lemma {:induction false} EmptyTogether<T(!new)>(a: seq<T>, b: seq<T>)
    requires Elements(a) == Elements(b)
    ensures a == [] <==> b == []
  {
    assert a != [] ==> a[0] in Elements(a);
    assert b != [] ==> b[0] in Elements(b);
  }

  lemma {:induction false} WithoutHead<T(!new)>(less: (T, T) -> bool, dom: set<T>, s: seq<T>)
    requires StrictOrder(less, dom) && Elements(s) <= dom && s != [] && SortedBy(less, s)
    ensures Elements(s[1..]) == Elements(s) - {s[0]}
  {
    assert s[0] in Elements(s);
    forall x ensures x in Elements(s[1..]) <==> x in Elements(s) - {s[0]} {
      if x in s[1..] {
        var i :| 0 <= i < |s[1..]| && s[1..][i] == x;
        assert less(s[0], s[i + 1]);
      } else if x in s {
        assert s == [s[0]] + s[1..];
      }
    }
  }

  /** A strict order leaves only one sorted arrangement of a set, so it does not matter which algorithm found it, or
      whether that algorithm is stable. */
  lemma {:induction false} SortedUnique<T(!new)>(less: (T, T) -> bool, dom: set<T>, a: seq<T>, b: seq<T>)
    requires StrictOrder(less, dom) && Elements(a) <= dom
    requires SortedBy(less, a) && SortedBy(less, b) && Elements(a) == Elements(b)
    ensures a == b
  {
    EmptyTogether(a, b);
    if a != [] {
      HeadsAgree(less, dom, a, b);
      WithoutHead(less, dom, a);
      WithoutHead(less, dom, b);
      SortedUnique(less, dom, a[1..], b[1..]);
      assert a == [a[0]] + a[1..] && b == [b[0]] + b[1..];
    }
  }
}
