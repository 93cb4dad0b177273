/** What happens in a turn, visit by visit, in the terms of what the models, the retrieval and the tools answered: which
    node comes next, and what each node writes. */
module AgentTurns {
  import opened Outcomes
  import opened ToolPlanning
  import opened AgentGraph
  import opened AgentStream

  // ---------------------------------------------------------------- which node comes next

  /** The only next node that the state a node left allows. */
  ghost predicate Follows(w: World, at: Node, next: Node, s: State) {
    match at
    case LoadMemoryNode => next == GuardNode
    case GuardNode => next == if s.guarded then End else ClassifyNode
    case ClassifyNode =>
      next in {GenerateNode, RewriteNode, CallToolsNode} && (next == GenerateNode <==> s.route == "smalltalk") &&
      (next == RewriteNode <==> s.route == "knowledge" && w.mortgage(s, s.filters) == None)
    case RewriteNode => next == RetrieveNode
    case RetrieveNode => next == GradeNode
    case GradeNode =>
      next in {GenerateNode, RewriteNode, CallToolsNode} && (next == GenerateNode <==> s.contextSufficient) &&
      (next == RewriteNode <==> !s.contextSufficient && s.iteration < 2)
    case CallToolsNode => next == GenerateNode
    case GenerateNode => next == End
    case _ => false
  }

  lemma {:induction false} OnwardFollows(w: World, node: Node, s: State)
    requires !node.Over()
    ensures Follows(w, node, Onward(w, node, s), s)
  {
  }

  // ---------------------------------------------------------------- what a node writes

  /** Loading the memory touches nothing else, and neither do the rewriting and the retrieval beyond what they are for;
      every retrieval is counted. */
  ghost predicate GathersOnly(w: World, node: Node, s: State, t: State) {
    match node
    case LoadMemoryNode => t == s.(memory := w.loadMemory(s))
    case RewriteNode => t == s.(rewrittenQuery := w.rewrite(s).0, filters := w.rewrite(s).1)
    case RetrieveNode =>
      var found := w.search(s);
      t == s.(retrieved := found.chunks, sources := found.sources, degraded := found.degraded,
              iteration := s.iteration + 1)
    case _ => true
  }

  /** A blocked question gets the reply of the guard. */
  ghost predicate GuardsOnly(w: World, s: State, t: State) {
    t == s.(guarded := t.guarded, answer := t.answer, error := t.error) && (t.guarded <==> w.guard(s) != Pass) &&
    if t.guarded then w.guard(s) == Blocked(t.answer, t.error) else t.answer == s.answer && t.error == s.error
  }

  /** Does the model name a known route? */
  predicate ModelRoutes(w: World, s: State) {
    w.modelAvailable && w.classify(s).Some? && w.classify(s).value.0 in ROUTE_VALUES
  }

  /** The first route whose keywords the text mentions; knowledge when there are none. */
  ghost predicate FirstMentioned(w: World, text: string, route: string) {
    (route == "handoff" <==> w.mentions("handoff", text)) &&
    (route == "web" <==> w.mentions("web", text) && !w.mentions("handoff", text)) &&
    (route in {"handoff", "web"} <==> w.mentions("handoff", text) || w.mentions("web", text)) &&
    (route in {"smalltalk", "knowledge"} <==>
      !w.mentions("handoff", text) && !w.mentions("web", text) && !w.mentions("listing_search", text)) &&
    (route == "smalltalk" ==> w.mentions("smalltalk", text)) &&
    (route == "knowledge" ==> !w.mentions("smalltalk", text)) && route in ROUTE_VALUES
  }

  /** A known route of the model is taken with its confidence; otherwise the keywords decide, with little. */
  ghost predicate ClassifiesOnly(w: World, s: State, t: State) {
    t == s.(route := t.route, confidence := t.confidence) &&
    (ModelRoutes(w, s) ==> w.classify(s) == Some((t.route, t.confidence))) &&
    (!ModelRoutes(w, s) ==> FirstMentioned(w, s.question, t.route) && t.confidence <= 0.4) &&
    (!w.modelAvailable ==> t.confidence == 0.35) &&
    (w.modelAvailable && w.classify(s).None? ==> t.confidence == 0.3) &&
    (w.modelAvailable && w.classify(s).Some? && w.classify(s).value.1 <= 0.4 ==>
      t.confidence == w.classify(s).value.1) &&
    (w.modelAvailable && w.classify(s).Some? && w.classify(s).value.1 > 0.4 && !ModelRoutes(w, s) ==>
      t.confidence == 0.4)
  }

  /** Nothing retrieved is never enough; otherwise only a judge that says so finds it insufficient, and the web is
      wanted only when the rounds are used up. */
  ghost predicate GradesOnly(w: World, s: State, t: State) {
    var refused := w.modelAvailable && w.judge(s).Judged? && !w.judge(s).sufficient;
    t == s.(contextSufficient := t.contextSufficient, gradeReason := t.gradeReason, needsWeb := t.needsWeb) &&
    (t.contextSufficient <==> s.retrieved != [] && !refused) &&
    (s.retrieved == [] ==> t.needsWeb && t.gradeReason == "nothing retrieved") &&
    (s.retrieved != [] && w.modelAvailable && w.judge(s).Judged? ==>
      t.gradeReason == w.judge(s).reason && (t.needsWeb <==> refused && s.iteration >= 2)) &&
    (s.retrieved != [] && !w.modelAvailable ==> t.needsWeb == s.needsWeb && t.gradeReason == "grading unavailable") &&
    (s.retrieved != [] && w.modelAvailable && w.judge(s).JudgeFailed? ==>
      t.needsWeb == s.needsWeb && t.gradeReason == "grading errored")
  }

  /** The generated reply, or an apology that keeps what went before. */
  ghost predicate GeneratesOnly(w: World, s: State, t: State) {
    t == s.(answer := t.answer, error := t.error, degraded := t.degraded, usage := t.usage) &&
    if s.guarded then t == s
    else if w.generate(s).GenerationFailed? then
      t.answer == "Sorry" && t.error == "GENERATION_FAILED" && t.degraded == s.degraded && t.usage == s.usage
    else
      var reply := w.generate(s);
      t.answer == reply.text && t.usage == reply.usage && t.error == s.error &&
      (t.degraded <==> s.degraded || reply.degraded)
  }

  /** One call, executed: the result of the tool, or that nobody knows it. */
  ghost predicate ResultOf(w: World, seen: State, call: Call, r: ToolResult) {
    r.name == call.name && (r.ok <==> call.name in w.registry && w.invoke(seen, call).ok) &&
    if call.name in w.registry then
      r.summary == w.invoke(seen, call).summary && r.error == w.invoke(seen, call).error
    else r.summary == "" && r.error == "unknown tool"
  }

  /** The sources of the executed calls, one after the other. */
  ghost function Cited(w: World, seen: State, calls: seq<Call>): seq<Source> {
    if calls == [] then []
    else (if calls[0].name in w.registry then w.invoke(seen, calls[0]).sources else []) + Cited(w, seen, calls[1..])
  }

  /** With the filters of this turn, every call is executed once, in order, and remembered by name. */
  ghost predicate Executes(w: World, s: State, calls: seq<Call>, t: State) {
    var seen := s.(filters := w.turnFilters(s));
    t == s.(filters := seen.filters, toolResults := t.toolResults, sources := t.sources,
            memory := s.memory.(profile := s.memory.profile.(lastTools := t.memory.profile.lastTools))) &&
    s.toolResults <= t.toolResults && |t.toolResults| == |s.toolResults| + |calls| &&
    (forall i :: 0 <= i < |calls| ==> ResultOf(w, seen, calls[i], t.toolResults[|s.toolResults| + i])) &&
    t.sources == s.sources + Cited(w, seen, calls) && |t.memory.profile.lastTools| == |calls| &&
    forall i :: 0 <= i < |calls| ==> t.memory.profile.lastTools[i] == calls[i].name
  }

  /** What the planner is asked about. */
  ghost function PlannedCalls(w: World, s: State): Option<seq<Call>> {
    var seen := s.(filters := w.turnFilters(s));
    ToolCalls(s.route, w.registry, w.plan(seen), Turn(w.listing(seen), w.mortgage(seen, seen.filters), 0, 0))
  }

  /** Without a registered tool on its route a turn calls none; otherwise it executes what was planned. */
  ghost predicate CallsOnly(w: World, s: State, t: State) {
    PlannedCalls(w, s).Some? &&
    if Offered(s.route, w.registry) == {} then t == s else Executes(w, s, PlannedCalls(w, s).value, t)
  }

  /** What a node that returns makes of the state. */
  ghost predicate Writes(w: World, node: Node, s: State, t: State) {
    match node
    case GuardNode => GuardsOnly(w, s, t)
    case ClassifyNode => ClassifiesOnly(w, s, t)
    case GradeNode => GradesOnly(w, s, t)
    case CallToolsNode => CallsOnly(w, s, t)
    case GenerateNode => GeneratesOnly(w, s, t)
    case _ => GathersOnly(w, node, s, t)
  }

  lemma {:induction false} CitedFrom(w: World, seen: State, first: Call, rest: seq<Call>)
    ensures CitedBy(w, seen, [first] + rest) == InvokedSources(w, seen, first) + CitedBy(w, seen, rest)
  {
    var all := [first] + rest;
    if rest == [] {
      assert all[..0] == [];
      assert [] + InvokedSources(w, seen, first) == InvokedSources(w, seen, first) + [];
    } else {
      CitedFrom(w, seen, first, rest[..|rest| - 1]);
      assert all[..|all| - 1] == [first] + rest[..|rest| - 1];
    }
  }

  lemma {:induction false} CitedFromFront(w: World, seen: State, calls: seq<Call>)
    ensures CitedBy(w, seen, calls) == Cited(w, seen, calls)
  {
    if calls != [] {
      CitedFrom(w, seen, calls[0], calls[1..]);
      CitedFromFront(w, seen, calls[1..]);
      assert [calls[0]] + calls[1..] == calls;
    }
  }

  lemma {:induction false} ResultsOf(w: World, seen: State, calls: seq<Call>, before: seq<ToolResult>)
    ensures var all := before + Results(w, seen, calls);
      before <= all && |all| == |before| + |calls| &&
      forall i :: 0 <= i < |calls| ==> ResultOf(w, seen, calls[i], all[|before| + i])
  {
    var results := Results(w, seen, calls);
    forall i | 0 <= i < |calls| ensures ResultOf(w, seen, calls[i], (before + results)[|before| + i]) {
      assert results[i] == Invoked(w, seen, calls[i]);
    }
  }

  lemma {:induction false} ExecutesCalls(w: World, s: State, seen: State, calls: seq<Call>, t: State)
    requires seen == WithFilters(w, s)
    requires t == seen.(toolResults := s.toolResults + Results(w, seen, calls),
                        sources := s.sources + CitedBy(w, seen, calls),
                        memory := s.memory.(profile := s.memory.profile.(lastTools := Names(calls))))
    ensures Executes(w, s, calls, t)
  {
    CitedFromFront(w, seen, calls);
    ResultsOf(w, seen, calls, s.toolResults);
  }

  lemma {:induction false} CallsWrite(w: World, s: State)
    requires !Raises(w, CallToolsNode, s)
    ensures CallsOnly(w, s, CallTools(w, s))
  {
    assert CallsOf(w, s) == PlannedCalls(w, s);
    if Offered(s.route, w.registry) != {} {
      ExecutesCalls(w, s, WithFilters(w, s), CallsOf(w, s).value, CallTools(w, s));
    }
  }

  lemma {:induction false} GuardWrites(w: World, s: State)
    ensures GuardsOnly(w, s, Guard(w, s))
  {
  }

  lemma {:induction false} ClassifyWrites(w: World, s: State)
    ensures ClassifiesOnly(w, s, Classify(w, s))
  {
    var fallback := KeywordRoute(w, s.question);
    assert FirstMentioned(w, s.question, fallback);
  }

  lemma {:induction false} GradeWrites(w: World, s: State)
    ensures GradesOnly(w, s, GradeContext(w, s))
  {
  }

  lemma {:induction false} GenerateWrites(w: World, s: State)
    ensures GeneratesOnly(w, s, Generate(w, s))
  {
  }

  lemma {:induction false} GathersWrite(w: World, node: Node, s: State)
    ensures GathersOnly(w, node, s, Updated(w, node, s))
  {
  }

  lemma {:induction false} NodeWrites(w: World, node: Node, s: State)
    requires !node.Over() && !Raises(w, node, s)
    ensures Writes(w, node, s, RunNode(w, node, s))
  {
    match node {
      case GuardNode => GuardWrites(w, s);
      case ClassifyNode => ClassifyWrites(w, s);
      case GradeNode => GradeWrites(w, s);
      case CallToolsNode => CallsWrite(w, s);
      case GenerateNode => GenerateWrites(w, s);
      case _ => GathersWrite(w, node, s);
    }
  }

  // ---------------------------------------------------------------- a whole turn

  /** From one arrival to the next: the node returned, wrote what it is for, and the next one is the one to follow. */
  ghost predicate StepsRight(w: World, a: Arrival, b: Arrival) {
    !RaisesThere(w, a) && Writes(w, a.node, a.state, b.state) && Follows(w, a.node, b.node, b.state)
  }

  /** Behind the last arrival: an exception that leaves the state, or the end of the graph. */
  ghost predicate EndsRight(w: World, last: Arrival, r: Run) {
    if RaisesThere(w, last) then r.end == Raised && r.state == last.state
    else r.end == End && Writes(w, last.node, last.state, r.state) && Follows(w, last.node, End, r.state)
  }

  ghost predicate GoesRight(w: World, a: seq<Arrival>, r: Run) {
    a != [] && (forall i :: 0 <= i < |a| - 1 ==> StepsRight(w, a[i], a[i + 1])) && EndsRight(w, a[|a| - 1], r)
  }

  lemma {:induction false} OneStepMore(w: World, first: Arrival, behind: seq<Arrival>, r: Run, r': Run)
    requires GoesRight(w, behind, r) && StepsRight(w, first, behind[0]) && r'.state == r.state && r'.end == r.end
    ensures GoesRight(w, [first] + behind, r')
  {
    var a := [first] + behind;
    forall i | 0 <= i < |a| - 1 ensures StepsRight(w, a[i], a[i + 1]) {
      if i > 0 {
        assert StepsRight(w, behind[i - 1], behind[i]);
      }
    }
  }

  lemma {:induction false} LastStep(w: World, node: Node, s: State)
    requires !node.Over() && Next(w, node, s).Over()
    ensures GoesRight(w, [Arrival(node, s)], Run([node], RunNode(w, node, s), Next(w, node, s)))
  {
    if !Raises(w, node, s) {
      NodeWrites(w, node, s);
      OnwardFollows(w, node, RunNode(w, node, s));
    }
  }

  /** Every run goes from node to node by what the state says, every node writes what it is for and nothing else, and
      the run ends where a node raises or the graph does. */
  lemma {:induction false} TurnGoesRight(w: World, node: Node, s: State)
    requires !node.Over()
    ensures GoesRight(w, Arrivals(w, node, s), GraphRun(w, node, s)) && Arrivals(w, node, s)[0] == Arrival(node, s)
    decreases VisitsLeft(node, s.iteration)
  {
    var next, s' := Next(w, node, s), RunNode(w, node, s);
    OneVisitLess(w, node, s);
    ArrivalsUnfold(w, node, s);
    if next.Over() {
      LastStep(w, node, s);
    } else {
      TurnGoesRight(w, next, s');
      NodeWrites(w, node, s);
      OnwardFollows(w, node, s');
      OneStepMore(w, Arrival(node, s), Arrivals(w, next, s'), GraphRun(w, next, s'), GraphRun(w, node, s));
    }
  }

  // ---------------------------------------------------------------- what the client is told

  predicate PastClassifier(node: Node) {
    node != LoadMemoryNode && node != GuardNode && node != ClassifyNode
  }

  lemma {:induction false} StaysPastClassifier(w: World, node: Node, s: State)
    requires PastClassifier(node) && !node.Over()
    ensures PastClassifier(Next(w, node, s)) && RunNode(w, node, s).route == s.route
  {
    if !Raises(w, node, s) {
      NodeWrites(w, node, s);
      OnwardFollows(w, node, RunNode(w, node, s));
    }
  }

  /** Behind the classifier the route stays. */
  lemma {:induction false} RouteStays(w: World, node: Node, s: State)
    requires PastClassifier(node)
    ensures UntilGeneration(w, node, s).state.route == s.route
    decreases VisitsLeft(node, s.iteration)
  {
    if node != GenerateNode && !node.Over() {
      OneVisitLess(w, node, s);
      StaysPastClassifier(w, node, s);
      RouteStays(w, Next(w, node, s), RunNode(w, node, s));
    }
  }

  /** The state behind the classifier, if a run that has not passed it gets there. */
  ghost function Classified(w: World, node: Node, s: State): Option<State>
    decreases VisitsLeft(node, s.iteration)
  {
    if node.Over() || PastClassifier(node) || Raises(w, node, s) then None
    else if node == ClassifyNode then Some(RunNode(w, node, s))
    else
      OneVisitLess(w, node, s);
      Classified(w, Next(w, node, s), RunNode(w, node, s))
  }

  /** What is prepared for the generation is on the route the classifier settled on. */
  lemma {:induction false} PreparedOnRoute(w: World, node: Node, s: State)
    requires !PastClassifier(node)
    ensures var p, c := UntilGeneration(w, node, s), Classified(w, node, s);
      (c.Some? ==> p.state.route == c.value.route) && (p.stopsAt == GenerateNode ==> c.Some?)
    decreases VisitsLeft(node, s.iteration)
  {
    OneVisitLess(w, node, s);
    Unfold(w, node, s);
    if !Raises(w, node, s) {
      OnwardFollows(w, node, RunNode(w, node, s));
      var next := Next(w, node, s);
      if node == ClassifyNode {
        RouteStays(w, next, RunNode(w, node, s));
      } else if next != End {
        PreparedOnRoute(w, next, RunNode(w, node, s));
      }
    }
  }

  /** What one event tells of the turn it belongs to. */
  ghost predicate Tells(w: World, p: Prepared, e: Event) {
    match e
    case ToolStart(route) => route == p.state.route && EndsInTools(p.visited)
    case ToolEnd(_, _, _) => EndsInTools(p.visited)
    case Sources(sources) => sources == p.state.sources != []
    case Done(turn) =>
      turn.route == p.state.route && turn.sources == p.state.sources && turn.toolResults == p.state.toolResults &&
      turn.degraded == p.state.degraded && turn.usage == p.state.usage
    case _ => true
  }

  ghost predicate AllTell(w: World, p: Prepared, events: seq<Event>) {
    forall e :: e in events ==> Tells(w, p, e)
  }

  lemma {:induction false} BothTell(w: World, p: Prepared, a: seq<Event>, b: seq<Event>)
    requires AllTell(w, p, a) && AllTell(w, p, b)
    ensures AllTell(w, p, a + b)
  {
  }

  lemma {:induction false} OneTells(w: World, p: Prepared, e: Event)
    requires Tells(w, p, e)
    ensures AllTell(w, p, [e])
  {
  }

  lemma {:induction false} TokensTell(w: World, p: Prepared, pieces: seq<string>)
    ensures AllTell(w, p, Tokens(pieces))
  {
    if pieces != [] {
      TokensTell(w, p, pieces[..|pieces| - 1]);
    }
  }

  lemma {:induction false} EndsTell(w: World, p: Prepared, results: seq<ToolResult>)
    requires EndsInTools(p.visited)
    ensures AllTell(w, p, ToolEnds(results))
  {
    forall e | e in ToolEnds(results) ensures Tells(w, p, e) {
      var i :| 0 <= i < |results| && ToolEnds(results)[i] == e;
      assert e == ToolEnd(results[i].name, results[i].ok, results[i].error);
    }
  }

  lemma {:induction false} ToolsTell(w: World, p: Prepared)
    ensures AllTell(w, p, ToolEvents(p)) && AllTell(w, p, Citations(p.state.sources))
    ensures AllTell(w, p, ToolEvents(p) + Citations(p.state.sources))
  {
    if EndsInTools(p.visited) {
      OneTells(w, p, ToolStart(p.state.route));
      EndsTell(w, p, p.state.toolResults);
      BothTell(w, p, [ToolStart(p.state.route)], ToolEnds(p.state.toolResults));
    }
    if p.state.sources != [] {
      OneTells(w, p, Sources(p.state.sources));
    }
    BothTell(w, p, ToolEvents(p), Citations(p.state.sources));
  }

  /** The tools are announced one by one, in the order in which they ran, each with whether it succeeded. */
  ghost predicate AnnouncesTools(route: string, results: seq<ToolResult>, events: seq<Event>) {
    |events| > |results| && events[0] == ToolStart(route) &&
    forall i :: 0 <= i < |results| ==>
      events[1 + i] == ToolEnd(results[i].name, results[i].ok, results[i].error)
  }

  lemma {:induction false} Behind(first: Event, ends: seq<Event>, rest: seq<Event>)
    ensures var all := [first] + ends + rest;
      |all| > |ends| && all[0] == first && forall i :: 0 <= i < |ends| ==> all[1 + i] == ends[i]
  {
  }

  lemma {:induction false} AnnouncedFirst(route: string, results: seq<ToolResult>, rest: seq<Event>)
    ensures AnnouncesTools(route, results, [ToolStart(route)] + ToolEnds(results) + rest)
  {
    Behind(ToolStart(route), ToolEnds(results), rest);
  }

  lemma {:induction false} EndingTells(w: World, p: Prepared)
    ensures AllTell(w, p, Ending(w.stream(p.state).raised, Done(Report(StreamedState(w, p.state)))))
  {
  }

  lemma {:induction false} FromTheFront(a: seq<Event>, b: seq<Event>, c: seq<Event>, d: seq<Event>)
    ensures a + b + c + d == a + (b + c + d)
  {
  }

  lemma {:induction false} RepliesTell(w: World, p: Prepared)
    requires p.stopsAt == GenerateNode && !Raises(w, GenerateNode, p.state)
    ensures AllTell(w, p, EventsOf(w, p))
    ensures EndsInTools(p.visited) ==> AnnouncesTools(p.state.route, p.state.toolResults, EventsOf(w, p))
  {
    var reply, done := w.stream(p.state), Done(Report(StreamedState(w, p.state)));
    var tools, citations := ToolEvents(p), Citations(p.state.sources);
    var tokens, ending := Tokens(reply.pieces), Ending(reply.raised, done);
    ToolsTell(w, p);
    TokensTell(w, p, reply.pieces);
    EndingTells(w, p);
    BothTell(w, p, tools + citations, tokens);
    BothTell(w, p, tools + citations + tokens, ending);
    FromTheFront(tools, citations, tokens, ending);
    AnnouncedFirst(p.state.route, p.state.toolResults, citations + tokens + ending);
  }

  lemma {:induction false} SourcesSent(w: World, p: Prepared)
    requires p.stopsAt == GenerateNode && p.state.sources != []
    ensures Sources(p.state.sources) in EventsOf(w, p)
  {
    assert Citations(p.state.sources) == [Sources(p.state.sources)];
    assert Sources(p.state.sources) in ToolEvents(p) + Citations(p.state.sources);
  }

  /** Every event tells the truth about the turn: the route is the classified one, the tools are those that ran, the
      sources and the report are those of the state the reply was generated from. */
  lemma {:induction false} EventsTellTheTurn(w: World, start: State)
    requires start.toolResults == []
    ensures var p := UntilGeneration(w, LoadMemoryNode, start);
      var c := Classified(w, LoadMemoryNode, start);
      AllTell(w, p, EventsOf(w, p)) && (c.Some? ==> p.state.route == c.value.route) &&
      (p.stopsAt == GenerateNode && EndsInTools(p.visited) && !StreamRaises(w, p) ==>
        AnnouncesTools(p.state.route, p.state.toolResults, EventsOf(w, p))) &&
      (p.stopsAt == GenerateNode && p.state.sources != [] ==> Sources(p.state.sources) in EventsOf(w, p))
  {
    var p := UntilGeneration(w, LoadMemoryNode, start);
    PreparedOnRoute(w, LoadMemoryNode, start);
    StopsSomewhere(w, LoadMemoryNode, start);
    ToolsTell(w, p);
    if p.stopsAt == GenerateNode {
      if p.state.sources != [] {
        SourcesSent(w, p);
      }
      if !Raises(w, GenerateNode, p.state) {
        RepliesTell(w, p);
      }
    }
  }
}
