/** Every run of the reindex as a protocol: one step per await, a crash possible before each of them, any number of
    attempts one after the other. */
module ReindexProtocol {
  import opened IndexNames
  import opened IndexLifecycle
  import Decimal

  datatype Phase =
    | Idle            // nobody is reindexing
    | Resolving       // about to look up the index behind the alias
    | Checking        // about to look for a stale target
    | DroppingStale   // about to delete it
    | Creating        // about to create the target
    | Filling         // the populator is writing into the target
    | Refreshing      // about to make its documents searchable
    | ReadingAlias    // about to read what the alias points at
    | Swapping        // about to send the alias actions
    | Cleaning        // deleting the detached indices

  /** What the running attempt keeps in local variables. */
  datatype Job = Job(full: set<Doc>, dropOld: bool, source: string, target: string, detached: set<string>)

  datatype State = State(cluster: Cluster, phase: Phase, job: Job)

  datatype Event =
    | Begin(full: set<Doc>, dropOld: bool)
    | Advance                 // the awaited request completes
    | WriteBatch(docs: set<Doc>)
    | DropDetached(index: string)
    | Crash                   // the process dies, or an awaited call raises

  predicate Enabled(s: State, e: Event) {
    match e
    case Begin(_, _) => s.phase == Idle
    case Crash => true
    case WriteBatch(docs) => s.phase == Filling && docs <= s.job.full
    case DropDetached(index) => s.phase == Cleaning && index in s.job.detached
    case Advance =>
      match s.phase
      case Idle => false
      case Resolving => s.cluster.alias != {}
      case Filling => s.job.target in s.cluster.indices && s.cluster.indices[s.job.target] == s.job.full
      case Cleaning => s.job.detached == {}
      case _ => true
  }

  function Contents(c: Cluster, name: string): set<Doc> {
    if name in c.indices then c.indices[name] else {}
  }

  function Step(s: State, e: Event): State
    requires Enabled(s, e)
  {
    var c, j := s.cluster, s.job;
    match e
    case Begin(full, dropOld) => State(c, Resolving, Job(full, dropOld, "", "", {}))
    case Crash => s.(phase := Idle)
    case WriteBatch(docs) => s.(cluster := Write(c, j.target, Contents(c, j.target) + docs))
    case DropDetached(index) => State(Delete(c, index), Cleaning, j.(detached := j.detached - {index}))
    case Advance =>
      match s.phase
      case Idle => s
      case Resolving =>
        var source := FirstOf(c.alias);
        State(c, Checking, j.(source := source, target := NextVersionName(source)))
      case Checking => s.(phase := if j.target in c.indices then DroppingStale else Creating)
      case DroppingStale => State(Delete(c, j.target), Creating, j)
      case Creating => State(Create(c, j.target, false), Filling, j)
      case Filling => s.(phase := Refreshing)
      case Refreshing => s.(phase := ReadingAlias)
      case ReadingAlias => State(c, Swapping, j.(detached := c.alias - {j.target}))
      case Swapping =>
        State(c.(alias := c.alias - j.detached + {j.target}), Cleaning,
              if j.dropOld then j else j.(detached := {}))
      case Cleaning => s.(phase := Idle)
  }

  ghost predicate IsRun(states: seq<State>, events: seq<Event>) {
    |states| == |events| + 1 &&
    forall i :: 0 <= i < |events| ==> Enabled(states[i], events[i]) && states[i + 1] == Step(states[i], events[i])
  }

  // ---------------------------------------------------------------- what every step keeps

  ghost predicate Live(c: Cluster, name: string) {
    name in c.indices && c.alias == {name}
  }

  ghost predicate PartlyFilled(c: Cluster, j: Job) {
    j.target in c.indices && c.indices[j.target] <= j.full
  }

  ghost predicate Filled(c: Cluster, j: Job) {
    j.target in c.indices && c.indices[j.target] == j.full
  }

  ghost predicate Inv(s: State) {
    var c, j := s.cluster, s.job;
    c.OneLive() &&
    match s.phase
    case Idle => true
    case Resolving => true
    case Cleaning => Live(c, j.target) && c.indices[j.target] == j.full && j.target !in j.detached
    case _ =>
      Live(c, j.source) && j.target != j.source &&
      match s.phase
      case Creating => j.target !in c.indices
      case Filling => PartlyFilled(c, j)
      case Refreshing => Filled(c, j)
      case ReadingAlias => Filled(c, j)
      case Swapping => Filled(c, j) && j.detached == {j.source}
      case _ => true
  }

  lemma {:induction false} LiveIsFirst(c: Cluster, name: string)
    requires Live(c, name)
    ensures FirstOf(c.alias) == name && c.OneLive() && c.Visible() == c.indices[name]
  {
    assert FirstOf(c.alias) in c.alias;
    assert c.Visible() == c.indices[name] by {
      forall d ensures d in c.Visible() <==> d in c.indices[name] {
        if d in c.indices[name] {
          assert name in c.alias && name in c.indices;
        }
      }
    }
  }

  lemma {:induction false} StepKeepsInv(s: State, e: Event)
    requires Inv(s) && Enabled(s, e)
    ensures Inv(Step(s, e))
  {
    var c, j, s' := s.cluster, s.job, Step(s, e);
    match e {
      case Begin(_, _) =>
      case Crash =>
      case WriteBatch(docs) =>
        assert Live(s'.cluster, j.source);
      case DropDetached(index) =>
        assert Live(s'.cluster, j.target);
      case Advance =>
        match s.phase {
          case Resolving =>
            var live :| live in c.indices && c.alias == {live};
            LiveIsFirst(c, live);
            NextIsOneVersionUp(live);
          case DroppingStale =>
            assert Live(s'.cluster, j.source);
          case Creating =>
            assert Live(s'.cluster, j.source);
          case Swapping =>
            assert Live(s'.cluster, j.target);
          case _ =>
        }
    }
  }

  /** The one step at which a reader can notice anything. */
  predicate IsSwap(s: State, e: Event) {
    s.phase == Swapping && e == Advance
  }

  /** What a search through the alias finds changes only at the swap, and there from the whole content of the old index
      to the whole content the populator wrote into the new one. */
  lemma {:induction false} ReadersNoticeOnlyTheSwap(s: State, e: Event)
    requires Inv(s) && Enabled(s, e)
    ensures var before, after := s.cluster.Visible(), Step(s, e).cluster.Visible();
      if IsSwap(s, e) then before == Contents(s.cluster, s.job.source) && after == s.job.full else after == before
  {
    StepKeepsInv(s, e);
    var live :| live in s.cluster.indices && s.cluster.alias == {live};
    LiveIsFirst(s.cluster, live);
    var s' := Step(s, e);
    if IsSwap(s, e) {
      LiveIsFirst(s'.cluster, s.job.target);
    } else {
      assert Live(s'.cluster, live);
      LiveIsFirst(s'.cluster, live);
    }
  }

  /** Neither delete of the protocol ever removes the index behind the alias. */
  lemma {:induction false} DeletesSpareTheLiveIndex(s: State, e: Event)
    requires Inv(s) && Enabled(s, e)
    ensures s.phase == DroppingStale && e == Advance ==> s.job.target !in s.cluster.alias
    ensures e.DropDetached? ==> e.index !in s.cluster.alias
    ensures forall n :: n in s.cluster.alias ==> n in Step(s, e).cluster.indices
  {
    StepKeepsInv(s, e);
  }

  /** Zero downtime: from an alias on exactly one existing index, any run - with a crash at any await, attempts that
      fail half way, stale targets left behind - keeps the alias on exactly one existing index in every state, and each
      step either leaves the readers' documents alone or replaces the old set by the complete new one. */
  lemma {:induction false} ZeroDowntime(states: seq<State>, events: seq<Event>, i: nat)
    requires IsRun(states, events) && i < |states|
    requires states[0].cluster.OneLive() && states[0].phase == Idle
    ensures Inv(states[i]) && states[i].cluster.OneLive()
    ensures i > 0 ==>
      states[i].cluster.Visible() == states[i - 1].cluster.Visible() ||
      (IsSwap(states[i - 1], events[i - 1]) && states[i].cluster.Visible() == states[i - 1].job.full)
  {
    if i > 0 {
      ZeroDowntime(states, events, i - 1);
      StepKeepsInv(states[i - 1], events[i - 1]);
      ReadersNoticeOnlyTheSwap(states[i - 1], events[i - 1]);
    }
  }

  // ---------------------------------------------------------------- the uninterrupted run

  function LastOf(states: seq<State>): State
    requires states != []
  {
    states[|states| - 1]
  }

  lemma {:induction false} Then(states: seq<State>, events: seq<Event>, e: Event)
    returns (states': seq<State>, events': seq<Event>)
    requires IsRun(states, events) && Enabled(LastOf(states), e)
    ensures IsRun(states', events') && states'[0] == states[0] && LastOf(states') == Step(LastOf(states), e)
  {
    states', events' := states + [Step(LastOf(states), e)], events + [e];
    forall i | 0 <= i < |events'|
      ensures Enabled(states'[i], events'[i]) && states'[i + 1] == Step(states'[i], events'[i])
    {
      assert i < |events| ==> Enabled(states[i], events[i]) && states[i + 1] == Step(states[i], events[i]);
    }
  }

  /** From the lookup to an empty target. */
  lemma {:induction false} RunToEmptyTarget(s: State, full: set<Doc>, dropOld: bool, source: string)
    returns (states: seq<State>, events: seq<Event>)
    requires s.phase == Idle && Live(s.cluster, source)
    ensures IsRun(states, events) && states[0] == s
    ensures var target := NextVersionName(source);
      var dropped := if target in s.cluster.indices then Delete(s.cluster, target) else s.cluster;
      LastOf(states) == State(Create(dropped, target, false), Filling, Job(full, dropOld, source, target, {}))
  {
    LiveIsFirst(s.cluster, source);
    states, events := [s], [];
    states, events := Then(states, events, Begin(full, dropOld));
    states, events := Then(states, events, Advance);
    states, events := Then(states, events, Advance);
    if NextVersionName(source) in s.cluster.indices {
      states, events := Then(states, events, Advance);
    }
    states, events := Then(states, events, Advance);
  }

  /** From the empty target to the swap. */
  lemma {:induction false} RunToSwap(states0: seq<State>, events0: seq<Event>)
    returns (states: seq<State>, events: seq<Event>)
    requires IsRun(states0, events0) && LastOf(states0).phase == Filling
    requires var s := LastOf(states0);
      s.job.target in s.cluster.indices && s.cluster.indices[s.job.target] == {} && s.job.target !in s.cluster.alias
    ensures IsRun(states, events) && states[0] == states0[0]
    ensures var s := LastOf(states0);
      var filled := Write(s.cluster, s.job.target, s.job.full);
      LastOf(states) == State(filled.(alias := {s.job.target}), Cleaning,
                              s.job.(detached := if s.job.dropOld then s.cluster.alias else {}))
  {
    var s := LastOf(states0);
    states, events := Then(states0, events0, WriteBatch(s.job.full));
    assert {} + s.job.full == s.job.full;
    states, events := Then(states, events, Advance);
    states, events := Then(states, events, Advance);
    states, events := Then(states, events, Advance);
    assert s.cluster.alias - {s.job.target} == s.cluster.alias;
    states, events := Then(states, events, Advance);
    assert s.cluster.alias - s.cluster.alias + {s.job.target} == {s.job.target};
  }

  /** From the swap to the end. */
  lemma {:induction false} RunToIdle(states0: seq<State>, events0: seq<Event>, source: string)
    returns (states: seq<State>, events: seq<Event>)
    requires IsRun(states0, events0)
    requires var s := LastOf(states0);
      s.phase == Cleaning && s.job.detached == if s.job.dropOld then {source} else {}
    ensures IsRun(states, events) && states[0] == states0[0] && LastOf(states).phase == Idle
    ensures var s := LastOf(states0);
      LastOf(states).cluster == if s.job.dropOld then Delete(s.cluster, source) else s.cluster
  {
    states, events := states0, events0;
    if LastOf(states0).job.dropOld {
      states, events := Then(states, events, DropDetached(source));
      assert {source} - {source} == {};
    }
    states, events := Then(states, events, Advance);
  }

  /** What the method leaves of a cluster whose alias is on one index. */
  lemma {:induction false} AttemptLeaves(c: Cluster, aliasName: string, source: string, full: set<Doc>, dropOld: bool)
    requires c.alias == {source} && aliasName !in c.indices
    requires var target := NextVersionName(source); target != source && target != aliasName
    ensures var target := NextVersionName(source);
      var dropped := if target in c.indices then Delete(c, target) else c;
      var swapped := Write(Create(dropped, target, false), target, full).(alias := {target});
      dropped.alias == {source} &&
      Attempt(c, aliasName, source, target, Populated(full), dropOld).0 ==
      if dropOld then Delete(swapped, source) else swapped
  {
    var target := NextVersionName(source);
    assert {source} - {target} == {source};
    assert {target} - {source} == {target};
  }

  /** The attempt that nothing interrupts is one of the runs, and it ends with the cluster that the method leaves. */
  lemma {:induction false} UninterruptedRun(s: State, full: set<Doc>, dropOld: bool, aliasName: string)
    returns (states: seq<State>, events: seq<Event>)
    requires s.phase == Idle && s.cluster.OneLive() && aliasName !in s.cluster.indices
    requires NextVersionName(FirstOf(s.cluster.alias)) != aliasName
    ensures IsRun(states, events) && states[0] == s && LastOf(states).phase == Idle
    ensures var source := FirstOf(s.cluster.alias);
      LastOf(states).cluster ==
      Attempt(s.cluster, aliasName, source, NextVersionName(source), Populated(full), dropOld).0
  {
    OneLiveIsFirst(s.cluster);
    var source := FirstOf(s.cluster.alias);
    NextIsOneVersionUp(source);
    AttemptLeaves(s.cluster, aliasName, source, full, dropOld);
    states, events := RunToEmptyTarget(s, full, dropOld, source);
    states, events := RunToSwap(states, events);
    states, events := RunToIdle(states, events, source);
  }

  // ---------------------------------------------------------------- where the guarantee ends

  /** The state in which an attempt that resolved the alias meets its stale-target check. */
  function AtStaleCheck(s: State): (r: State)
    requires s.phase == Resolving && s.cluster.alias != {}
    ensures r.phase == Checking && r.cluster == s.cluster
  {
    Step(s, Advance)
  }

  /** Where that check leads: the state after the stale target, if there is one, has been deleted. */
  function AfterStaleCheck(s: State): (r: State)
    requires s.phase == Resolving && s.cluster.alias != {}
    ensures r.phase == Creating
  {
    var checked := Step(AtStaleCheck(s), Advance);
    if checked.phase == DroppingStale then Step(checked, Advance) else checked
  }

  /** For an alias on any set of existing indices, the stale-target delete takes an index away from the readers exactly
      when the next version of the first one is itself behind the alias. */
  lemma {:induction false} StaleDeleteHitsAlias(s: State)
    requires s.phase == Resolving && s.cluster.alias != {} && s.cluster.alias <= s.cluster.indices.Keys
    ensures AfterStaleCheck(s).cluster.alias != s.cluster.alias <==>
      NextVersionName(FirstOf(s.cluster.alias)) in s.cluster.alias
  {
    var target := AtStaleCheck(s).job.target;
    assert target == NextVersionName(FirstOf(s.cluster.alias));
    if target in s.cluster.alias {
      assert target !in AfterStaleCheck(s).cluster.alias;
    } else {
      assert AfterStaleCheck(s).cluster.alias == s.cluster.alias;
    }
  }

  /** An alias on p_v1 and p_v2. */
  function SplitAlias(): State {
    State(Cluster(map["p_v1" := {1}, "p_v2" := {2}], {"p_v1", "p_v2"}), Resolving, Job({}, true, "", "", {}))
  }

  lemma {:induction false} OneBeforeTwo()
    ensures NameLess("p_v1", "p_v2") && !NameLess("p_v2", "p_v1")
  {
    assert "p_v1"[1..] == "_v1" && "p_v2"[1..] == "_v2";
    assert "_v1"[1..] == "v1" && "_v2"[1..] == "v2";
    assert "v1"[1..] == "1" && "v2"[1..] == "2";
  }

  lemma {:induction false} NextOfPv1()
    ensures NextVersionName("p_v1") == "p_v2"
  {
    assert "p" + "_v" + "1" == "p_v1";
    ParseOfVersioned("p", "1");
    assert Decimal.ValueOf("1") == 1 by { assert "1"[..0] == ""; }
    assert Decimal.Numeral(2) == "2";
    assert "p" + "_v" + "2" == "p_v2";
  }

  lemma {:induction false} FirstOfSplitAlias()
    ensures FirstOf({"p_v1", "p_v2"}) == "p_v1"
  {
    OneBeforeTwo();
    assert FirstOf({"p_v1", "p_v2"}) in {"p_v1", "p_v2"};
    assert "p_v1" in {"p_v1", "p_v2"};
  }

  lemma {:induction false} WithoutTheSecond<T>(a: T, b: T)
    requires a != b
    ensures {a, b} - {b} == {a}
  {
  }

  lemma {:induction false} DroppedTarget(s: State, target: string)
    requires s.phase == Resolving && s.cluster.alias != {} && target == NextVersionName(FirstOf(s.cluster.alias))
    requires target in s.cluster.indices
    ensures AfterStaleCheck(s).cluster.alias == s.cluster.alias - {target}
  {
  }

  /** The attempt resolves p_v1 and deletes the live p_v2 as a stale target, before anything has been filled. */
  lemma {:induction false} TwoIndicesLoseDocuments()
    ensures SplitAlias().cluster.alias <= SplitAlias().cluster.indices.Keys
    ensures AfterStaleCheck(SplitAlias()).cluster.alias == {"p_v1"}
  {
    FirstOfSplitAlias();
    NextOfPv1();
    DroppedTarget(SplitAlias(), "p_v2");
    assert "p_v1" != "p_v2" by { OneBeforeTwo(); }
    WithoutTheSecond("p_v1", "p_v2");
  }
}
