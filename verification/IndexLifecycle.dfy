/** The zero-downtime reindex of the search index: a new version is created beside the live one, filled, swapped in
    behind the alias in one atomic request, and the old version is dropped. The process may die at every await. */
module IndexLifecycle {
  import opened Outcomes
  import opened IndexNames

  type Doc = nat

  /** What Elasticsearch stores: the documents of every concrete index, and the indices behind the alias. */
  datatype Cluster = Cluster(indices: map<string, set<Doc>>, alias: set<string>) {

    ghost predicate OneLive() {
      exists live :: live in indices && alias == {live}
    }

    /** The documents a search through the alias finds. */
    ghost function Visible(): set<Doc> {
      set n, d | n in alias && n in indices && d in indices[n] :: d
    }
  }

  datatype Action = Remove(index: string) | Add(index: string)

  // ---------------------------------------------------------------- the requests, each atomic

  function Create(c: Cluster, name: string, withAlias: bool): Cluster {
    Cluster(c.indices[name := {}], if withAlias then c.alias + {name} else c.alias)
  }

  function Delete(c: Cluster, name: string): Cluster {
    Cluster(c.indices - {name}, c.alias - {name})
  }

  function Write(c: Cluster, name: string, docs: set<Doc>): Cluster {
    c.(indices := c.indices[name := docs])
  }

  function Apply(alias: set<string>, actions: seq<Action>): set<string>
    decreases actions
  {
    if actions == [] then alias
    else match actions[0]
      case Remove(n) => Apply(alias - {n}, actions[1..])
      case Add(n) => Apply(alias + {n}, actions[1..])
  }

  lemma {:induction false} ApplyOneMore(alias: set<string>, actions: seq<Action>, a: Action)
    ensures Apply(alias, actions + [a])
         == if a.Remove? then Apply(alias, actions) - {a.index} else Apply(alias, actions) + {a.index}
    decreases actions
  {
    if actions == [] {
      assert ([] + [a])[1..] == [];
    } else {
      assert (actions + [a])[1..] == actions[1..] + [a];
      ApplyOneMore(if actions[0].Remove? then alias - {actions[0].index} else alias + {actions[0].index},
                   actions[1..], a);
    }
  }

  // ---------------------------------------------------------------- the first name behind the alias

  predicate NameLess(a: string, b: string) {
    if b == "" then false
    else if a == "" then true
    else a[0] < b[0] || (a[0] == b[0] && NameLess(a[1..], b[1..]))
  }

  lemma {:induction false} NamesCompare(a: string, b: string)
    ensures a == b || NameLess(a, b) || NameLess(b, a)
  {
    if a != "" && b != "" && a[0] == b[0] {
      NamesCompare(a[1..], b[1..]);
      assert a == [a[0]] + a[1..] && b == [b[0]] + b[1..];
    }
  }

  lemma {:induction false} NameLessTransitive(a: string, b: string, c: string)
    requires NameLess(a, b) && NameLess(b, c)
    ensures NameLess(a, c)
  {
    if a != "" && a[0] == b[0] && b[0] == c[0] {
      NameLessTransitive(a[1..], b[1..], c[1..]);
    }
  }

  predicate First(n: string, names: set<string>) {
    n in names && forall m :: m in names ==> m == n || NameLess(n, m)
  }

  lemma {:induction false} FirstExists(names: set<string>)
    requires names != {}
    ensures exists n :: First(n, names)
  {
    var x :| x in names;
    var rest := names - {x};
    if rest == {} {
      assert names == {x};
      assert First(x, names);
    } else {
      FirstExists(rest);
      var n :| First(n, rest);
      NamesCompare(x, n);
      if NameLess(x, n) {
        forall m | m in names ensures m == x || NameLess(x, m) {
          if m != x && m != n { NameLessTransitive(x, n, m); }
        }
        assert First(x, names);
      } else {
        assert First(n, names);
      }
    }
  }

  lemma {:induction false} NotLessThanItself(a: string)
    ensures !NameLess(a, a)
  {
    if a != "" { NotLessThanItself(a[1..]); }
  }

  lemma {:induction false} FirstUnique(a: string, b: string, names: set<string>)
    requires First(a, names) && First(b, names)
    ensures a == b
  {
    if a != b {
      NameLessTransitive(a, b, a);
      NotLessThanItself(a);
    }
  }

  function FirstOf(names: set<string>): (n: string)
    requires names != {}
    ensures First(n, names)
  {
    FirstExists(names);
    assert forall a, b | First(a, names) && First(b, names) :: a == b by {
      forall a, b | First(a, names) && First(b, names) ensures a == b { FirstUnique(a, b, names); }
    }
    var n :| n in names && First(n, names);
    n
  }

  // ---------------------------------------------------------------- one attempt as a function of the cluster

  /** How the target is filled: by a populator that finishes, by one that raises half way (a server-side copy that
      fails counts as that), or by copying the live index. */
  datatype Population = Populated(docs: set<Doc>) | PopulateRaised(partial: set<Doc>) | CopyFromSource

  /** The cluster after the bootstrap of an unset alias; nothing changes when an index already has its name. */
  function Bootstrapped(c: Cluster, aliasName: string, versionIndex: string): Cluster {
    if aliasName in c.indices then c
    else if versionIndex in c.indices then c.(alias := {versionIndex})
    else Create(c, versionIndex, true)
  }

  function WithTarget(c: Cluster, aliasName: string, target: string): (Cluster, bool) {
    var dropped := if target in c.indices then Delete(c, target) else c;
    if target == aliasName && dropped.alias != {} then (dropped, false) else (Create(dropped, target, false), true)
  }

  function Filling(c: Cluster, source: string, target: string, population: Population): (Cluster, bool) {
    match population
    case Populated(docs) => (Write(c, target, docs), true)
    case PopulateRaised(partial) => (Write(c, target, partial), false)
    case CopyFromSource => if source in c.indices then (Write(c, target, c.indices[source]), true) else (c, false)
  }

  function Promotion(c: Cluster, aliasName: string, target: string, dropOld: bool): (Cluster, bool) {
    if aliasName in c.indices then (c, false)
    else
      var detached := c.alias - {target};
      var swapped := c.(alias := {target});
      (if dropOld then Cluster(swapped.indices - detached, swapped.alias - detached) else swapped, true)
  }

  function Attempt(c: Cluster, aliasName: string, source: string, target: string, population: Population, dropOld: bool)
    : (Cluster, bool)
  {
    var (prepared, created) := WithTarget(c, aliasName, target);
    if !created then (prepared, false)
    else
      var (filled, complete) := Filling(prepared, source, target, population);
      if !complete then (filled, false) else Promotion(filled, aliasName, target, dropOld)
  }

  // ---------------------------------------------------------------- the manager

  class IndexManager {
    var cluster: Cluster
    const aliasName: string
    const versionIndex: string

    constructor (cluster: Cluster, aliasName: string, versionIndex: string)
      ensures this.cluster == cluster && this.aliasName == aliasName && this.versionIndex == versionIndex
    {
      this.cluster, this.aliasName, this.versionIndex := cluster, aliasName, versionIndex;
    }

    method ResolveAlias() returns (r: Option<string>)
      ensures r == if cluster.alias == {} then None else Some(FirstOf(cluster.alias))
    {
      r := if cluster.alias == {} then None else Some(FirstOf(cluster.alias));
    }

    /** One atomic request: it is refused as a whole when the alias name is taken by an index or the target is
        missing. */
    method UpdateAliases(actions: seq<Action>) returns (ok: bool)
      modifies this
      ensures ok <==>
        old(aliasName !in cluster.indices && forall a :: a in actions && a.Add? ==> a.index in cluster.indices)
      ensures cluster == if ok then old(cluster).(alias := Apply(old(cluster).alias, actions)) else old(cluster)
    {
      ok := aliasName !in cluster.indices && forall a | a in actions :: a.Add? ==> a.index in cluster.indices;
      if ok {
        cluster := cluster.(alias := Apply(cluster.alias, actions));
      }
    }

    /** Points the alias at newIndex and detaches every other index, or only removeFrom when that is given. */
    method SwapAlias(newIndex: string, removeFrom: Option<string>) returns (ok: bool, detached: set<string>)
      modifies this
      ensures ok <==> old(aliasName !in cluster.indices && newIndex in cluster.indices)
      ensures detached ==
        set n | n in old(cluster.alias) && n != newIndex && (removeFrom.Some? ==> n == removeFrom.value)
      ensures cluster ==
        if ok then old(cluster).(alias := old(cluster.alias) - detached + {newIndex}) else old(cluster)
    {
      var actions: seq<Action> := [];
      detached := {};
      var current := cluster.alias;
      while current != {}
        invariant cluster == old(cluster) && current <= cluster.alias
        invariant detached == set n | n in cluster.alias - current && n != newIndex &&
                                      (removeFrom.Some? ==> n == removeFrom.value)
        invariant Apply(cluster.alias, actions) == cluster.alias - detached
        invariant forall a :: a in actions ==> a.Remove?
        decreases current
      {
        var indexName :| indexName in current;
        current := current - {indexName};
        if indexName == newIndex || (removeFrom.Some? && indexName != removeFrom.value) {
          continue;
        }
        ApplyOneMore(cluster.alias, actions, Remove(indexName));
        actions := actions + [Remove(indexName)];
        detached := detached + {indexName};
      }
      ApplyOneMore(cluster.alias, actions, Add(newIndex));
      assert Add(newIndex) in actions + [Add(newIndex)];
      actions := actions + [Add(newIndex)];
      ok := UpdateAliases(actions);
    }

    /** Bootstrap: makes sure the alias points at a concrete index, unless an index already has the name of the
        alias. */
    method EnsureIndex()
      modifies this
      ensures cluster == if old(cluster.alias) != {} then old(cluster)
                         else Bootstrapped(old(cluster), aliasName, versionIndex)
    {
      if cluster.alias != {} || aliasName in cluster.indices {
        return;
      }
      if versionIndex in cluster.indices {
        var ok, detached := SwapAlias(versionIndex, None);
        assert old(cluster.alias) - detached + {versionIndex} == {versionIndex};
        return;
      }
      cluster := Create(cluster, versionIndex, true);
    }

    /** A fresh, empty target beside the live index; a stale index of that name is dropped first. Creating an index
        fails when an alias already has its name. */
    method PrepareTarget(target: string) returns (ok: bool)
      modifies this
      ensures cluster == WithTarget(old(cluster), aliasName, target).0
      ensures ok == WithTarget(old(cluster), aliasName, target).1
    {
      if target in cluster.indices {
        cluster := Delete(cluster, target);
      }
      ok := target != aliasName || cluster.alias == {};
      if ok {
        cluster := Create(cluster, target, false);
      }
    }

    method Fill(source: string, target: string, population: Population) returns (ok: bool)
      modifies this
      ensures cluster == Filling(old(cluster), source, target, population).0
      ensures ok == Filling(old(cluster), source, target, population).1
    {
      match population
      case Populated(docs) =>
        cluster := Write(cluster, target, docs);
        ok := true;
      case PopulateRaised(partial) =>
        cluster := Write(cluster, target, partial);
        ok := false;
      case CopyFromSource =>
        ok := source in cluster.indices;
        if ok {
          cluster := Write(cluster, target, cluster.indices[source]);
        }
    }

    method DropAll(names: set<string>)
      modifies this
      ensures cluster == Cluster(old(cluster.indices) - names, old(cluster.alias) - names)
    {
      var left := names;
      while left != {}
        invariant left <= names
        invariant cluster == Cluster(old(cluster.indices) - (names - left), old(cluster.alias) - (names - left))
        decreases left
      {
        var oldIndex :| oldIndex in left;
        left := left - {oldIndex};
        cluster := Delete(cluster, oldIndex);
      }
    }

    /** Swaps the alias over to the filled target and drops what was detached. */
    method Promote(target: string, dropOld: bool) returns (ok: bool)
      requires target in cluster.indices
      modifies this
      ensures cluster == Promotion(old(cluster), aliasName, target, dropOld).0
      ensures ok == Promotion(old(cluster), aliasName, target, dropOld).1
    {
      var detached;
      ok, detached := SwapAlias(target, None);
      assert detached == old(cluster.alias) - {target};
      if ok && dropOld {
        DropAll(detached);
      }
    }

    /** Creates, fills and promotes the target of one attempt. False when a request failed or the populator raised. */
    method Rebuild(source: string, target: string, population: Population, dropOld: bool) returns (done: bool)
      modifies this
      ensures (cluster, done) == Attempt(old(cluster), aliasName, source, target, population, dropOld)
    {
      done := PrepareTarget(target);
      if !done {
        return;
      }
      done := Fill(source, target, population);
      if !done {
        return;
      }
      done := Promote(target, dropOld);
    }

    method ZeroDowntimeReindex(population: Population, dropOld: bool) returns (done: bool)
      modifies this
      ensures var ready := if old(cluster).alias == {} then Bootstrapped(old(cluster), aliasName, versionIndex)
                           else old(cluster);
        var source := if ready.alias == {} then versionIndex else FirstOf(ready.alias);
        (cluster, done) == Attempt(ready, aliasName, source, NextVersionName(source), population, dropOld)
    {
      var resolved := ResolveAlias();
      if resolved.None? {
        EnsureIndex();
        resolved := ResolveAlias();
      }
      var source := if resolved.Some? then resolved.value else versionIndex;
      done := Rebuild(source, NextVersionName(source), population, dropOld);
    }
  }

  // ---------------------------------------------------------------- what an attempt does to the readers

  lemma {:induction false} VisibleIs(c: Cluster, live: string)
    requires c.alias == {live} && live in c.indices
    ensures c.OneLive() && c.Visible() == c.indices[live]
  {
    forall d ensures d in c.Visible() <==> d in c.indices[live] {
      if d in c.indices[live] {
        assert live in c.alias && live in c.indices;
      }
    }
  }

  lemma {:induction false} OneLiveIsFirst(c: Cluster)
    requires c.OneLive()
    ensures c.alias != {} && c.alias == {FirstOf(c.alias)} && FirstOf(c.alias) in c.indices
  {
    var live :| live in c.indices && c.alias == {live};
    assert live in c.alias;
    assert FirstOf(c.alias) in c.alias;
  }

  lemma {:induction false} AttemptDone(c: Cluster, aliasName: string, source: string, population: Population,
                                       dropOld: bool)
    requires c.alias == {source} && source in c.indices && aliasName !in c.indices
    requires var target := NextVersionName(source); target != source && target != aliasName
    requires !population.PopulateRaised?
    ensures var target := NextVersionName(source);
      var (after, done) := Attempt(c, aliasName, source, target, population, dropOld);
      done && after.alias == {target} && target in after.indices &&
      after.indices[target] == (if population.Populated? then population.docs else c.indices[source]) &&
      (source in after.indices <==> !dropOld)
  {
    assert {source} - {NextVersionName(source)} == {source};
  }

  lemma {:induction false} AttemptFails(c: Cluster, aliasName: string, source: string, population: Population,
                                        dropOld: bool)
    requires c.alias == {source} && source in c.indices && aliasName !in c.indices
    requires NextVersionName(source) != source
    requires population.PopulateRaised? || NextVersionName(source) == aliasName
    ensures var (after, done) := Attempt(c, aliasName, source, NextVersionName(source), population, dropOld);
      !done && after.alias == c.alias && source in after.indices && after.indices[source] == c.indices[source]
  {
    assert {source} - {NextVersionName(source)} == {source};
  }

  /** From an alias on exactly one index, an attempt gives the readers the complete new set of documents or, when the
      populator raises or the next version's name is the alias's own, the old one; the alias is on exactly one index
      either way, and the old index is gone only if it was to be dropped after a swap. */
  lemma {:induction false} ReindexOutcome(c: Cluster, aliasName: string, population: Population, dropOld: bool)
    requires c.OneLive() && aliasName !in c.indices
    ensures var source := FirstOf(c.alias);
      var target := NextVersionName(source);
      var (after, done) := Attempt(c, aliasName, source, target, population, dropOld);
      c.alias == {source} && source in c.indices && after.OneLive() &&
      (done <==> !population.PopulateRaised? && target != aliasName) &&
      (if done then after.alias == {target} else after.alias == c.alias) &&
      after.Visible() == (if done && population.Populated? then population.docs else c.indices[source]) &&
      (source in after.indices <==> !(done && dropOld))
  {
    OneLiveIsFirst(c);
    var source := FirstOf(c.alias);
    var target := NextVersionName(source);
    NextIsOneVersionUp(source);
    var (after, done) := Attempt(c, aliasName, source, target, population, dropOld);
    if population.PopulateRaised? || target == aliasName {
      AttemptFails(c, aliasName, source, population, dropOld);
      VisibleIs(after, source);
    } else {
      AttemptDone(c, aliasName, source, population, dropOld);
      VisibleIs(after, target);
    }
  }

  lemma {:induction false} AttemptWithoutAlias(
      c: Cluster, aliasName: string, source: string, target: string, population: Population, dropOld: bool)
    requires c.alias == {} && aliasName in c.indices
    ensures var (after, done) := Attempt(c, aliasName, source, target, population, dropOld);
      !done && after.alias == {} && after.indices.Keys == c.indices.Keys + {target} &&
      forall n :: n in c.indices && n != target ==> after.indices[n] == c.indices[n]
  {
    var (prepared, created) := WithTarget(c, aliasName, target);
    assert created && prepared.alias == {} && prepared.indices.Keys == c.indices.Keys + {target};
    var (filled, complete) := Filling(prepared, source, target, population);
    assert filled.indices.Keys == c.indices.Keys + {target};
  }

  /** What a failed attempt may leave of the alias: all of it, but for a stale target that was deleted. */
  ghost function AliasWithout(c: Cluster, target: string): set<string> {
    if target in c.indices then c.alias - {target} else c.alias
  }

  lemma {:induction false} TargetMade(c: Cluster, aliasName: string, target: string)
    ensures var (prepared, created) := WithTarget(c, aliasName, target);
      prepared.alias == AliasWithout(c, target) && (created <==> target != aliasName || prepared.alias == {}) &&
      (created ==> prepared.indices == c.indices[target := {}]) &&
      forall n :: n in c.indices && n != target ==> n in prepared.indices && prepared.indices[n] == c.indices[n]
  {
  }

  lemma {:induction false} TargetFilled(c: Cluster, source: string, target: string, population: Population)
    requires target in c.indices && source != target
    ensures var (filled, complete) := Filling(c, source, target, population);
      filled.alias == c.alias && filled.indices.Keys == c.indices.Keys &&
      (complete <==> !population.PopulateRaised? && (population.CopyFromSource? ==> source in c.indices)) &&
      (complete ==>
        filled.indices[target] == if population.Populated? then population.docs else c.indices[source]) &&
      forall n :: n in c.indices && n != target ==> filled.indices[n] == c.indices[n]
  {
  }

  lemma {:induction false} TargetPromoted(c: Cluster, aliasName: string, target: string, dropOld: bool)
    requires target in c.indices
    ensures var (after, done) := Promotion(c, aliasName, target, dropOld);
      (done <==> aliasName !in c.indices) && after.alias == (if done then {target} else c.alias) &&
      target in after.indices && after.indices[target] == c.indices[target] &&
      forall n :: n in c.indices && !(done && dropOld && n in c.alias) ==>
        n in after.indices && after.indices[n] == c.indices[n]
  {
  }

  /** From any cluster at all: when an attempt succeeds, what it then leaves behind the alias, and that it spares every
      index but the target and, after a swap that is to drop them, the ones it took the alias from. */
  lemma {:induction false} AttemptOnAnyCluster(
      c: Cluster, aliasName: string, source: string, target: string, population: Population, dropOld: bool)
    requires source != target
    ensures var (after, done) := Attempt(c, aliasName, source, target, population, dropOld);
      (done <==>
        target != aliasName && aliasName !in c.indices && !population.PopulateRaised? &&
        (population.CopyFromSource? ==> source in c.indices)) &&
      after.alias == (if done then {target} else AliasWithout(c, target)) &&
      (done ==>
        target in after.indices &&
        after.indices[target] == if population.Populated? then population.docs else c.indices[source]) &&
      forall n :: n in c.indices && n != target && !(done && dropOld && n in c.alias) ==>
        n in after.indices && after.indices[n] == c.indices[n]
  {
    var (prepared, created) := WithTarget(c, aliasName, target);
    TargetMade(c, aliasName, target);
    if created {
      var (filled, complete) := Filling(prepared, source, target, population);
      TargetFilled(prepared, source, target, population);
      if complete {
        TargetPromoted(filled, aliasName, target, dropOld);
      }
    }
  }

  /** From an unset alias. Usually the bootstrap puts it on one index, the first version, and what then happens is the
      outcome above. Where an index already has the name of the alias it stays unset, and no attempt can succeed: at
      best it leaves a filled target behind. Nothing else is touched. */
  lemma {:induction false} ReindexFromUnset(
      c: Cluster, aliasName: string, versionIndex: string, population: Population, dropOld: bool)
    requires c.alias == {} && aliasName != versionIndex
    ensures var ready, target := Bootstrapped(c, aliasName, versionIndex), NextVersionName(versionIndex);
      if aliasName in c.indices then
        var (after, done) := Attempt(ready, aliasName, versionIndex, target, population, dropOld);
        !done && after.alias == {} && after.indices.Keys == c.indices.Keys + {target} &&
        forall n :: n in c.indices && n != target ==> after.indices[n] == c.indices[n]
      else
        ready.OneLive() && aliasName !in ready.indices && FirstOf(ready.alias) == versionIndex &&
        ready.Visible() == if versionIndex in c.indices then c.indices[versionIndex] else {}
  {
    var ready := Bootstrapped(c, aliasName, versionIndex);
    if aliasName in c.indices {
      AttemptWithoutAlias(c, aliasName, versionIndex, NextVersionName(versionIndex), population, dropOld);
    } else {
      assert ready.alias == {versionIndex};
      VisibleIs(ready, versionIndex);
      OneLiveIsFirst(ready);
    }
  }
}
