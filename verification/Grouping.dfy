/** Sums over records and insertion-ordered grouping, as the schedule rollups use them. */
module Grouping {

  function Sum<T>(f: T -> int, s: seq<T>): int {
    if s == [] then 0 else f(s[0]) + Sum(f, s[1..])
  }

  lemma {:induction false} SumAppend<T>(f: T -> int, a: seq<T>, b: seq<T>)
    ensures Sum(f, a + b) == Sum(f, a) + Sum(f, b)
  {
    if a == [] {
      assert a + b == b;
    } else {
      assert (a + b)[0] == a[0] && (a + b)[1..] == a[1..] + b;
      SumAppend(f, a[1..], b);
    }
  }

  /** One group: the key and its rows in their original order. */
  datatype Group<+T> = Group(key: int, rows: seq<T>)

  function Flatten<T>(groups: seq<Group<T>>): seq<T> {
    if groups == [] then [] else groups[0].rows + Flatten(groups[1..])
  }

  ghost predicate NoneEmpty<T>(groups: seq<Group<T>>) {
    forall i :: 0 <= i < |groups| ==> groups[i].rows != []
  }

  /** Enumerable#group_by, one row at a time: a row joins the group of its key, or opens a new group at the end. */
  function Insert<T>(groups: seq<Group<T>>, key: int, row: T): (r: seq<Group<T>>)
    ensures NoneEmpty(groups) ==> NoneEmpty(r)
  {
    if groups == [] then [Group(key, [row])]
    else if groups[0].key == key then [Group(key, groups[0].rows + [row])] + groups[1..]
    else [groups[0]] + Insert(groups[1..], key, row)
  }

  function GroupBy<T>(key: T -> int, rows: seq<T>): (groups: seq<Group<T>>)
    ensures NoneEmpty(groups)
  {
    if rows == [] then []
    else
      var last := rows[|rows| - 1];
      Insert(GroupBy(key, rows[..|rows| - 1]), key(last), last)
  }

  ghost predicate KeysAscend<T>(key: T -> int, rows: seq<T>) {
    forall i, j :: 0 <= i < j < |rows| ==> key(rows[i]) <= key(rows[j])
  }

  ghost predicate Homogeneous<T>(key: T -> int, g: Group<T>) {
    g.rows != [] && forall r :: r in g.rows ==> key(r) == g.key
  }

  /** The groups carry strictly ascending keys, no group is empty, and every row sits in the group of its key. */
  ghost predicate Sound<T>(key: T -> int, groups: seq<Group<T>>) {
    (forall i, j :: 0 <= i < j < |groups| ==> groups[i].key < groups[j].key) &&
    (forall i :: 0 <= i < |groups| ==> Homogeneous(key, groups[i]))
  }

  /** Where the keys ascend and none exceeds the new one, insertion only ever touches the end of the list. */
  lemma {:induction false} InsertShape<T>(groups: seq<Group<T>>, k: int, row: T)
    requires forall i, j :: 0 <= i < j < |groups| ==> groups[i].key < groups[j].key
    requires forall i :: 0 <= i < |groups| ==> groups[i].key <= k
    ensures var n := |groups|;
      Insert(groups, k, row) ==
        if n > 0 && groups[n - 1].key == k
        then groups[..n - 1] + [Group(k, groups[n - 1].rows + [row])]
        else groups + [Group(k, [row])]
  {
    if groups != [] {
      if groups[0].key != k {
        InsertShape(groups[1..], k, row);
      }
    }
  }

  lemma {:induction false} FlattenAppend<T>(a: seq<Group<T>>, b: seq<Group<T>>)
    ensures Flatten(a + b) == Flatten(a) + Flatten(b)
  {
    if a == [] {
      assert a + b == b;
    } else {
      assert (a + b)[0] == a[0] && (a + b)[1..] == a[1..] + b;
      FlattenAppend(a[1..], b);
    }
  }

  lemma {:induction false} FlattenLast<T>(init: seq<Group<T>>, g: Group<T>)
    ensures Flatten(init + [g]) == Flatten(init) + g.rows
  {
    FlattenAppend(init, [g]);
    assert [g][1..] == [];
    assert Flatten([g]) == g.rows + [];
  }

  lemma {:induction false} InsertFlattens<T>(groups: seq<Group<T>>, k: int, row: T)
    requires forall i, j :: 0 <= i < j < |groups| ==> groups[i].key < groups[j].key
    requires forall i :: 0 <= i < |groups| ==> groups[i].key <= k
    ensures Flatten(Insert(groups, k, row)) == Flatten(groups) + [row]
  {
    var n := |groups|;
    InsertShape(groups, k, row);
    if n > 0 && groups[n - 1].key == k {
      var init, last := groups[..n - 1], groups[n - 1];
      assert groups == init + [last];
      FlattenLast(init, last);
      FlattenLast(init, Group(k, last.rows + [row]));
    } else {
      FlattenLast(groups, Group(k, [row]));
    }
  }

  ghost predicate KeysAtMost<T>(groups: seq<Group<T>>, k: int) {
    forall i :: 0 <= i < |groups| ==> groups[i].key <= k
  }

  /** Inserting a row whose key is not below any earlier key keeps the groups sound. */
  lemma {:induction false} LastGrows<T>(key: T -> int, groups: seq<Group<T>>, row: T)
    requires Sound(key, groups) && groups != [] && groups[|groups| - 1].key == key(row)
    ensures var n := |groups| - 1;
      Sound(key, groups[..n] + [Group(key(row), groups[n].rows + [row])])
  {
    assert Homogeneous(key, groups[|groups| - 1]);
  }

  lemma {:induction false} NewGroup<T>(key: T -> int, groups: seq<Group<T>>, row: T)
    requires Sound(key, groups) && forall i :: 0 <= i < |groups| ==> groups[i].key < key(row)
    ensures Sound(key, groups + [Group(key(row), [row])])
  {
  }

  lemma {:induction false} InsertSound<T>(key: T -> int, groups: seq<Group<T>>, k: int, row: T)
    requires Sound(key, groups) && KeysAtMost(groups, k) && k == key(row)
    ensures Sound(key, Insert(groups, k, row)) && KeysAtMost(Insert(groups, k, row), k)
  {
    var n := |groups|;
    InsertShape(groups, k, row);
    if n > 0 && groups[n - 1].key == k {
      LastGrows(key, groups, row);
    } else {
      assert n > 0 ==> groups[n - 1].key < k;
      NewGroup(key, groups, row);
    }
  }

  /** Grouping rows whose keys ascend cuts the list into consecutive runs: nothing is lost, duplicated or moved. */
  lemma {:induction false} GroupByPartitions<T>(key: T -> int, rows: seq<T>)
    requires KeysAscend(key, rows)
    ensures Sound(key, GroupBy(key, rows))
    ensures Flatten(GroupBy(key, rows)) == rows
    ensures rows != [] ==> GroupBy(key, rows) != []
    ensures rows != [] ==> KeysAtMost(GroupBy(key, rows), key(rows[|rows| - 1]))
  {
    if rows != [] {
      var init, last := rows[..|rows| - 1], rows[|rows| - 1];
      GroupByPartitions(key, init);
      var g := GroupBy(key, init);
      if init != [] {
        assert key(rows[|rows| - 2]) <= key(last);
      }
      InsertFlattens(g, key(last), last);
      InsertSound(key, g, key(last), last);
      assert rows == init + [last];
    }
  }

  /** These rows, one behind the other, are all those with this key. */
  ghost predicate IsRun<T>(key: T -> int, rows: seq<T>, k: int, lo: nat, hi: nat) {
    lo < hi <= |rows| && forall i :: 0 <= i < |rows| ==> (lo <= i < hi <==> key(rows[i]) == k)
  }

  lemma {:induction false} FlattenSplit<T>(groups: seq<Group<T>>, i: nat)
    requires i < |groups|
    ensures Flatten(groups) == Flatten(groups[..i]) + groups[i].rows + Flatten(groups[i + 1..])
  {
    assert groups == groups[..i] + [groups[i]] + groups[i + 1..];
    FlattenAppend(groups[..i] + [groups[i]], groups[i + 1..]);
    FlattenLast(groups[..i], groups[i]);
  }

  lemma {:induction false} KeysOfFlatten<T>(key: T -> int, groups: seq<Group<T>>, row: T)
    requires row in Flatten(groups) && forall g :: g in groups ==> Homogeneous(key, g)
    ensures exists g :: g in groups && g.key == key(row)
  {
    if row in groups[0].rows {
      assert groups[0] in groups;
    } else {
      KeysOfFlatten(key, groups[1..], row);
    }
  }

  lemma {:induction false} OutsideGroup<T>(key: T -> int, groups: seq<Group<T>>, others: seq<Group<T>>, i: nat, row: T)
    requires Sound(key, groups) && i < |groups| && row in Flatten(others)
    requires others == groups[..i] || others == groups[i + 1..]
    ensures key(row) != groups[i].key
  {
    KeysOfFlatten(key, others, row);
  }

  /** Every group is a run of the rows. */
  lemma {:induction false} GroupIsRun<T>(key: T -> int, groups: seq<Group<T>>, i: nat) returns (lo: nat, hi: nat)
    requires Sound(key, groups) && i < |groups|
    ensures IsRun(key, Flatten(groups), groups[i].key, lo, hi) && Flatten(groups)[lo..hi] == groups[i].rows
  {
    var before, own, after := Flatten(groups[..i]), groups[i].rows, Flatten(groups[i + 1..]);
    var rows := Flatten(groups);
    FlattenSplit(groups, i);
    lo, hi := |before|, |before| + |own|;
    assert Homogeneous(key, groups[i]);
    forall k | 0 <= k < |rows| ensures lo <= k < hi <==> key(rows[k]) == groups[i].key {
      if k < lo {
        assert rows[k] == before[k];
        OutsideGroup(key, groups, groups[..i], i, rows[k]);
      } else if k < hi {
        assert rows[k] == own[k - lo];
      } else {
        assert rows[k] == after[k - hi];
        OutsideGroup(key, groups, groups[i + 1..], i, rows[k]);
      }
    }
  }

  function GroupTotals<T>(f: T -> int, groups: seq<Group<T>>): int {
    if groups == [] then 0 else Sum(f, groups[0].rows) + GroupTotals(f, groups[1..])
  }

  lemma {:induction false} TotalsPreserved<T>(f: T -> int, groups: seq<Group<T>>)
    ensures GroupTotals(f, groups) == Sum(f, Flatten(groups))
  {
    if groups != [] {
      TotalsPreserved(f, groups[1..]);
      SumAppend(f, groups[0].rows, Flatten(groups[1..]));
    }
  }

  lemma {:induction false} LastOfFlatten<T>(key: T -> int, groups: seq<Group<T>>)
    requires Sound(key, groups) && groups != []
    ensures Flatten(groups) != []
    ensures var g, all := groups[|groups| - 1].rows, Flatten(groups); g[|g| - 1] == all[|all| - 1]
  {
    if |groups| > 1 {
      LastOfFlatten(key, groups[1..]);
      assert groups[1..][|groups| - 2] == groups[|groups| - 1];
    } else {
      assert Flatten(groups) == groups[0].rows;
    }
  }
}
