/** What filtering a list means: an item that passes lands behind as many items as passed before it. */
module Selections {

  ghost function Passing<T>(p: T -> bool, items: seq<T>): (n: nat)
    ensures n <= |items|
  {
    if items == [] then 0 else Passing(p, items[..|items| - 1]) + if p(items[|items| - 1]) then 1 else 0
  }

  /** Item i, if it passes, stands in the list at its place. */
  ghost predicate Lands<T, X>(p: T -> bool, f: T -> X, items: seq<T>, i: nat, kept: seq<X>)
    requires i < |items|
  {
    p(items[i]) ==> Passing(p, items[..i]) < |kept| && kept[Passing(p, items[..i])] == f(items[i])
  }

  /** The list holds f of the items that pass, and nothing else, in their order. */
  ghost predicate Selects<T, X>(p: T -> bool, f: T -> X, items: seq<T>, kept: seq<X>) {
    |kept| == Passing(p, items) && forall i: nat :: i < |items| ==> Lands(p, f, items, i, kept)
  }

  lemma {:induction false} PassingOneMore<T>(p: T -> bool, items: seq<T>, last: T)
    ensures Passing(p, items + [last]) == Passing(p, items) + if p(last) then 1 else 0
  {
    assert (items + [last])[..|items|] == items;
  }

  lemma {:induction false} NothingSelected<T, X>(p: T -> bool, f: T -> X)
    ensures Selects(p, f, [], [])
  {
  }

  /** One item more: kept at the end, or left out. */
  lemma {:induction false} SelectsOneMore<T, X>(p: T -> bool, f: T -> X, items: seq<T>, kept: seq<X>, last: T)
    requires Selects(p, f, items, kept)
    ensures Selects(p, f, items + [last], if p(last) then kept + [f(last)] else kept)
  {
    var all, more := items + [last], if p(last) then kept + [f(last)] else kept;
    PassingOneMore(p, items, last);
    forall i: nat | i < |all| ensures Lands(p, f, all, i, more) {
      assert all[..i] == if i < |items| then items[..i] else items;
      if i < |items| {
        assert Lands(p, f, items, i, kept);
      }
    }
  }

  lemma {:induction false} PassingFirst<T>(p: T -> bool, first: T, items: seq<T>)
    ensures Passing(p, [first] + items) == Passing(p, items) + if p(first) then 1 else 0
  {
    if items == [] {
      assert [first] + items == [] + [first];
      PassingOneMore(p, [], first);
    } else {
      var init, last := items[..|items| - 1], items[|items| - 1];
      PassingFirst(p, first, init);
      PassingOneMore(p, [first] + init, last);
      PassingOneMore(p, init, last);
      assert [first] + items == ([first] + init) + [last] && items == init + [last];
    }
  }

  /** The same with an item in front. */
  lemma {:induction false} SelectsFirst<T, X>(p: T -> bool, f: T -> X, first: T, items: seq<T>, kept: seq<X>)
    requires Selects(p, f, items, kept)
    ensures Selects(p, f, [first] + items, if p(first) then [f(first)] + kept else kept)
  {
    var all, more := [first] + items, if p(first) then [f(first)] + kept else kept;
    PassingFirst(p, first, items);
    forall i: nat | i < |all| ensures Lands(p, f, all, i, more) {
      if i > 0 {
        assert all[..i] == [first] + items[..i - 1];
        PassingFirst(p, first, items[..i - 1]);
        assert Lands(p, f, items, i - 1, kept);
      }
    }
  }

  /** Every place is taken by an item that passes. */
  lemma {:induction false} TakenBy<T>(p: T -> bool, items: seq<T>, k: nat) returns (i: nat)
    requires k < Passing(p, items)
    ensures i < |items| && p(items[i]) && Passing(p, items[..i]) == k
  {
    var n := |items| - 1;
    if k < Passing(p, items[..n]) {
      i := TakenBy(p, items[..n], k);
      assert items[..n][..i] == items[..i];
    } else {
      i := n;
    }
  }

  /** There is only one such list. */
  lemma {:induction false} SelectionIsUnique<T, X>(p: T -> bool, f: T -> X, items: seq<T>, a: seq<X>, b: seq<X>)
    requires Selects(p, f, items, a) && Selects(p, f, items, b)
    ensures a == b
  {
    forall k | 0 <= k < |a| ensures a[k] == b[k] {
      var i := TakenBy(p, items, k);
      assert Lands(p, f, items, i, a) && Lands(p, f, items, i, b);
    }
  }
}
