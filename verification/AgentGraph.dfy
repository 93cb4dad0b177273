/** The chat agent's decision structure, written three times in the service: as graph edges, as a sequential fallback
    and inside the streaming entry point. Models, retrieval and tools are arbitrary functions, and every node may raise
    an exception that nothing in the turn catches. */
module AgentGraph {
  import opened Outcomes
  import opened ToolPlanning

  const MAX_ITERATIONS: nat := 2

  type Filters = nat      // structured filters, opaque here
  type Source = nat       // a citation card
  datatype Chunk = Chunk(title: string, content: string)
  datatype Profile = Profile(known: nat, lastTools: seq<string>)
  datatype Memory = Memory(messages: seq<string>, summary: string, profile: Profile, locale: string, confirmed: bool)
  datatype ToolResult = ToolResult(name: string, ok: bool, summary: string, error: string)

  /** The working state of a turn; every key is present from the start. */
  datatype State = State(
    question: string,
    memory: Memory,
    route: string,
    confidence: real,
    rewrittenQuery: string,
    filters: Filters,
    retrieved: seq<Chunk>,
    sources: seq<Source>,
    contextSufficient: bool,
    gradeReason: string,
    needsWeb: bool,
    toolResults: seq<ToolResult>,
    answer: string,
    guarded: bool,
    degraded: bool,
    iteration: nat,
    error: string,
    usage: nat
  )

  /** Nothing has been found, called, said or counted yet. */
  function InitialState(question: string, messages: seq<string>, locale: string): (s: State)
    ensures s.question == s.rewrittenQuery == question && s.memory.messages == messages && s.memory.locale == locale
    ensures s.retrieved == [] && s.sources == [] && s.toolResults == [] && s.answer == s.error == s.gradeReason == ""
    ensures !s.contextSufficient && !s.needsWeb && !s.guarded && !s.degraded && s.route == "knowledge"
    ensures s.iteration == s.usage == 0 && s.memory.profile.lastTools == []
  {
    State(question, Memory(messages, "", Profile(0, []), locale, false), "knowledge", 0.0, question, 0, [], [], false,
          "", false, [], "", false, false, 0, "", 0)
  }

  datatype Verdict = Pass | Blocked(reply: string, error: string)
  datatype SearchResult = SearchResult(chunks: seq<Chunk>, sources: seq<Source>, degraded: bool)
  datatype Judgement = JudgeFailed | Judged(sufficient: bool, reason: string)
  datatype Reply = GenerationFailed | Generated(text: string, degraded: bool, usage: nat)
  datatype Pieces = Pieces(pieces: seq<string>, raised: bool)
  datatype Outcome = Outcome(ok: bool, summary: string, error: string, sources: seq<Source>)

  /** Everything a turn does not decide itself. */
  datatype World = World(
    loadMemory: State -> Memory,
    guard: State -> Verdict,
    modelAvailable: bool,
    classify: State -> Option<(string, real)>,       // None: the call raised
    mentions: (string, string) -> bool,              // does the text hold a keyword of the route?
    rewrite: State -> (string, Filters),
    search: State -> SearchResult,
    judge: State -> Judgement,
    mortgage: (State, Filters) -> Option<Arguments>, // the arguments of a mortgage question
    turnFilters: State -> Filters,                   // filters parsed late and overlaid on the profile
    registry: set<string>,
    plan: State -> PlannerReply,
    listing: State -> Arguments,
    invoke: (State, Call) -> Outcome,
    generate: State -> Reply,                        // the buffered reply to the prompt built from the state
    stream: State -> Pieces,                         // the streamed reply to the same prompt
    raises: (Node, State) -> bool                    // does the node, or choosing the edge behind it, raise?
  )

  // ---------------------------------------------------------------- the nodes

  function LoadMemory(w: World, s: State): State {
    s.(memory := w.loadMemory(s))
  }

  function Guard(w: World, s: State): State {
    match w.guard(s)
    case Pass => s.(guarded := false)
    case Blocked(reply, error) => s.(guarded := true, answer := reply, error := error)
  }

  /** The keyword table is tried from top to bottom. */
  function KeywordRoute(w: World, text: string): (route: string)
    ensures route in ROUTE_VALUES
  {
    if w.mentions("handoff", text) then "handoff"
    else if w.mentions("web", text) then "web"
    else if w.mentions("listing_search", text) then "listing_search"
    else if w.mentions("smalltalk", text) then "smalltalk"
    else "knowledge"
  }

  function Classify(w: World, s: State): State {
    var fallback := KeywordRoute(w, s.question);
    if !w.modelAvailable then s.(route := fallback, confidence := 0.35)
    else match w.classify(s)
      case None => s.(route := fallback, confidence := 0.3)
      case Some((selected, confidence)) =>
        if selected in ROUTE_VALUES then s.(route := selected, confidence := confidence)
        else s.(route := fallback, confidence := if confidence < 0.4 then confidence else 0.4)
  }

  function RewriteQuery(w: World, s: State): State {
    var (query, filters) := w.rewrite(s);
    s.(rewrittenQuery := query, filters := filters)
  }

  function Retrieve(w: World, s: State): State {
    var r := w.search(s);
    s.(retrieved := r.chunks, sources := r.sources, degraded := r.degraded, iteration := s.iteration + 1)
  }

  function GradeContext(w: World, s: State): State {
    if s.retrieved == [] then
      s.(contextSufficient := false, gradeReason := "nothing retrieved", needsWeb := true)
    else if !w.modelAvailable then s.(contextSufficient := true, gradeReason := "grading unavailable")
    else match w.judge(s)
      case JudgeFailed => s.(contextSufficient := true, gradeReason := "grading errored")
      case Judged(sufficient, reason) =>
        s.(contextSufficient := sufficient, gradeReason := reason,
           needsWeb := !sufficient && s.iteration >= MAX_ITERATIONS)
  }

  function Names(calls: seq<Call>): (names: seq<string>)
    ensures |names| == |calls| && forall i :: 0 <= i < |names| ==> names[i] == calls[i].name
  {
    seq(|calls|, i requires 0 <= i < |calls| => calls[i].name)
  }

  function Invoked(w: World, s: State, call: Call): ToolResult {
    var o := w.invoke(s, call);
    if call.name in w.registry then ToolResult(call.name, o.ok, o.summary, o.error)
    else ToolResult(call.name, false, "", "unknown tool")
  }

  function InvokedSources(w: World, s: State, call: Call): seq<Source> {
    if call.name in w.registry then w.invoke(s, call).sources else []
  }

  function Results(w: World, s: State, calls: seq<Call>): (r: seq<ToolResult>)
    ensures |r| == |calls| && forall i :: 0 <= i < |r| ==> r[i] == Invoked(w, s, calls[i])
  {
    if calls == [] then []
    else
      var last := |calls| - 1;
      Results(w, s, calls[..last]) + [Invoked(w, s, calls[last])]
  }

  function CitedBy(w: World, s: State, calls: seq<Call>): seq<Source> {
    if calls == [] then []
    else CitedBy(w, s, calls[..|calls| - 1]) + InvokedSources(w, s, calls[|calls| - 1])
  }

  /** The state the planner and the tools see: this turn's filters are filled in first. */
  function WithFilters(w: World, s: State): State {
    s.(filters := w.turnFilters(s))
  }

  function TurnOf(w: World, s: State): Turn {
    Turn(w.listing(s), w.mortgage(s, s.filters), 0, 0)
  }

  /** The calls the node makes; None when the planner's reply cannot be walked through. */
  function CallsOf(w: World, s: State): Option<seq<Call>> {
    ToolCalls(s.route, w.registry, w.plan(WithFilters(w, s)), TurnOf(w, WithFilters(w, s)))
  }

  function CallTools(w: World, s: State): State {
    if Offered(s.route, w.registry) == {} || CallsOf(w, s).None? then s
    else
      var seen, calls := WithFilters(w, s), CallsOf(w, s).value;
      seen.(toolResults := s.toolResults + Results(w, seen, calls),
            sources := s.sources + CitedBy(w, seen, calls),
            memory := s.memory.(profile := s.memory.profile.(lastTools := Names(calls))))
  }

  function Generate(w: World, s: State): State {
    if s.guarded then s
    else match w.generate(s)
      case GenerationFailed => s.(answer := "Sorry", error := "GENERATION_FAILED")
      case Generated(text, degraded, usage) =>
        s.(answer := text, degraded := s.degraded || degraded, usage := usage)
  }

  // ---------------------------------------------------------------- the edges

  /** The nodes, and the two ways a run can be over: at the end of the graph, or with an exception. */
  datatype Node =
    | LoadMemoryNode | GuardNode | ClassifyNode | RewriteNode | RetrieveNode | GradeNode | CallToolsNode | GenerateNode
    | End | Raised
  {
    predicate Over() {
      this == End || this == Raised
    }
  }

  /** The state a node leaves when it returns. */
  function Updated(w: World, node: Node, s: State): State {
    match node
    case LoadMemoryNode => LoadMemory(w, s)
    case GuardNode => Guard(w, s)
    case ClassifyNode => Classify(w, s)
    case RewriteNode => RewriteQuery(w, s)
    case RetrieveNode => Retrieve(w, s)
    case GradeNode => GradeContext(w, s)
    case CallToolsNode => CallTools(w, s)
    case GenerateNode => Generate(w, s)
    case _ => s
  }

  /** The tools raise, whatever else may raise there, when the planner's reply cannot be walked through. */
  predicate Raises(w: World, node: Node, s: State) {
    w.raises(node, s) || (node == CallToolsNode && CallsOf(w, s).None?)
  }

  /** A node that raises leaves the state as it was. */
  function RunNode(w: World, node: Node, s: State): State {
    if Raises(w, node, s) then s else Updated(w, node, s)
  }

  function AfterRoute(w: World, s: State): (next: Node)
    ensures next in {GenerateNode, CallToolsNode, RewriteNode}
  {
    if s.route == "smalltalk" then GenerateNode
    else if s.route == "knowledge" then if w.mortgage(s, s.filters).Some? then CallToolsNode else RewriteNode
    else CallToolsNode
  }

  function AfterGrade(s: State): (next: Node)
    ensures next in {GenerateNode, CallToolsNode, RewriteNode}
    ensures next == RewriteNode ==> s.iteration < MAX_ITERATIONS
  {
    if s.contextSufficient then GenerateNode
    else if s.iteration < MAX_ITERATIONS then RewriteNode
    else CallToolsNode
  }

  /** The edge behind a node that returned and left this state. */
  function Onward(w: World, node: Node, s: State): Node {
    match node
    case LoadMemoryNode => GuardNode
    case GuardNode => if s.guarded then End else ClassifyNode
    case ClassifyNode => AfterRoute(w, s)
    case RewriteNode => RetrieveNode
    case RetrieveNode => GradeNode
    case GradeNode => AfterGrade(s)
    case CallToolsNode => GenerateNode
    case GenerateNode => End
    case _ => node
  }

  /** Where the compiled graph goes from a node that it runs in this state. */
  function Next(w: World, node: Node, s: State): Node {
    if Raises(w, node, s) then Raised else Onward(w, node, RunNode(w, node, s))
  }

  /** How many more visits a run can make from a node: the termination measure of the graph. */
  function VisitsLeft(node: Node, iteration: nat): nat {
    var budget := if iteration < MAX_ITERATIONS then MAX_ITERATIONS - iteration else 0;
    var afterRetrieval := if budget == 0 then 0 else budget - 1;
    match node
    case LoadMemoryNode => 3 * afterRetrieval + 8
    case GuardNode => 3 * afterRetrieval + 7
    case ClassifyNode => 3 * afterRetrieval + 6
    case RewriteNode => 3 * afterRetrieval + 5
    case RetrieveNode => 3 * afterRetrieval + 4
    case GradeNode => 3 * budget + 3
    case CallToolsNode => 2
    case GenerateNode => 1
    case _ => 0
  }

  lemma {:induction false} OnlyRetrieveCounts(w: World, node: Node, s: State)
    ensures Updated(w, node, s).iteration == if node == RetrieveNode then s.iteration + 1 else s.iteration
  {
  }

  /** The edges as drawn: what may follow a node that leaves this many iterations counted. */
  predicate Edge(node: Node, next: Node, iteration: nat) {
    match node
    case LoadMemoryNode => next == GuardNode
    case GuardNode => next == ClassifyNode || next == End
    case ClassifyNode => next == RewriteNode || next == CallToolsNode || next == GenerateNode
    case RewriteNode => next == RetrieveNode
    case RetrieveNode => next == GradeNode
    case GradeNode =>
      next == CallToolsNode || next == GenerateNode || (next == RewriteNode && iteration < MAX_ITERATIONS)
    case CallToolsNode => next == GenerateNode
    case GenerateNode => next == End
    case _ => false
  }

  lemma {:induction false} EdgeTaken(w: World, node: Node, s: State)
    requires !node.Over()
    ensures Edge(node, Onward(w, node, s), s.iteration)
  {
    assert AfterRoute(w, s) in {GenerateNode, CallToolsNode, RewriteNode};
    assert AfterGrade(s) in {GenerateNode, CallToolsNode, RewriteNode};
  }

  lemma {:induction false} EdgeDescends(node: Node, next: Node, before: nat, after: nat)
    requires Edge(node, next, after) && after == if node == RetrieveNode then before + 1 else before
    ensures VisitsLeft(next, after) < VisitsLeft(node, before)
  {
    match node {
      case RetrieveNode =>
      case GradeNode =>
      case _ =>
    }
  }

  lemma {:induction false} OneVisitLess(w: World, node: Node, s: State)
    requires !node.Over()
    ensures VisitsLeft(Next(w, node, s), RunNode(w, node, s).iteration) < VisitsLeft(node, s.iteration)
  {
    if !Raises(w, node, s) {
      var s' := RunNode(w, node, s);
      OnlyRetrieveCounts(w, node, s);
      EdgeTaken(w, node, s');
      EdgeDescends(node, Onward(w, node, s'), s.iteration, s'.iteration);
    }
  }

  /** What a run went through, the state it left, and how it was over. */
  datatype Run = Run(visited: seq<Node>, state: State, end: Node)

  /** The compiled graph from a node on. */
  function GraphRun(w: World, node: Node, s: State): (r: Run)
    ensures r.end.Over()
    ensures |r.visited| <= VisitsLeft(node, s.iteration)
    decreases VisitsLeft(node, s.iteration)
  {
    if node.Over() then Run([], s, node)
    else
      OneVisitLess(w, node, s);
      var rest := GraphRun(w, Next(w, node, s), RunNode(w, node, s));
      rest.(visited := [node] + rest.visited)
  }

  /** The part of a run before generation, and the node it stops in front of. */
  datatype Prepared = Prepared(visited: seq<Node>, state: State, stopsAt: Node)

  function UntilGeneration(w: World, node: Node, s: State): (p: Prepared)
    ensures p.stopsAt == GenerateNode || p.stopsAt.Over()
    decreases VisitsLeft(node, s.iteration)
  {
    if node.Over() || node == GenerateNode then Prepared([], s, node)
    else
      OneVisitLess(w, node, s);
      var rest := UntilGeneration(w, Next(w, node, s), RunNode(w, node, s));
      rest.(visited := [node] + rest.visited)
  }

  lemma {:induction false} GenerationRuns(w: World, s: State)
    ensures GraphRun(w, GenerateNode, s) == Run([GenerateNode], RunNode(w, GenerateNode, s), Next(w, GenerateNode, s))
  {
    OneVisitLess(w, GenerateNode, s);
    var next, s' := Next(w, GenerateNode, s), RunNode(w, GenerateNode, s);
    assert next.Over();
    assert GraphRun(w, next, s') == Run([], s', next);
  }

  lemma {:induction false} GenerationComesLast(w: World, node: Node, s: State)
    ensures var p := UntilGeneration(w, node, s);
      GraphRun(w, node, s) ==
      if p.stopsAt == GenerateNode then
        Run(p.visited + [GenerateNode], RunNode(w, GenerateNode, p.state), Next(w, GenerateNode, p.state))
      else Run(p.visited, p.state, p.stopsAt)
    decreases VisitsLeft(node, s.iteration)
  {
    if node == GenerateNode {
      GenerationRuns(w, s);
    } else if !node.Over() {
      OneVisitLess(w, node, s);
      GenerationComesLast(w, Next(w, node, s), RunNode(w, node, s));
      var rest := UntilGeneration(w, Next(w, node, s), RunNode(w, node, s));
      assert [node] + (rest.visited + [GenerateNode]) == [node] + rest.visited + [GenerateNode];
    }
  }

  // ---------------------------------------------------------------- the sequential executors

  lemma {:induction false} OneMoreCall(w: World, s: State, calls: seq<Call>, i: nat)
    requires i < |calls|
    ensures Results(w, s, calls[..i + 1]) == Results(w, s, calls[..i]) + [Invoked(w, s, calls[i])]
    ensures CitedBy(w, s, calls[..i + 1]) == CitedBy(w, s, calls[..i]) + InvokedSources(w, s, calls[i])
  {
    assert calls[..i + 1][..i] == calls[..i];
  }

  method RunCalls(w: World, seen: State, calls: seq<Call>) returns (results: seq<ToolResult>, sources: seq<Source>)
    ensures results == seen.toolResults + Results(w, seen, calls)
    ensures sources == seen.sources + CitedBy(w, seen, calls)
  {
    results, sources := seen.toolResults, seen.sources;
    for i := 0 to |calls|
      invariant results == seen.toolResults + Results(w, seen, calls[..i])
      invariant sources == seen.sources + CitedBy(w, seen, calls[..i])
    {
      OneMoreCall(w, seen, calls, i);
      results := results + [Invoked(w, seen, calls[i])];
      sources := sources + InvokedSources(w, seen, calls[i]);
    }
    assert calls[..|calls|] == calls;
  }

  const OPENING := [LoadMemoryNode, GuardNode, ClassifyNode]
  const ROUND := [RewriteNode, RetrieveNode, GradeNode]

  /** The node that calls the tools; `raised` tells that it raised instead of returning an update. */
  method RunCallTools(w: World, s: State) returns (next: State, raised: bool)
    ensures next == CallTools(w, s) && raised == CallsOf(w, s).None?
  {
    if Offered(s.route, w.registry) == {} {
      return s, false;
    }
    var seen := WithFilters(w, s);
    var planned := CallsOf(w, s);
    if planned.None? {
      return s, true;
    }
    var results, sources := RunCalls(w, seen, planned.value);
    next := seen.(toolResults := results, sources := sources,
                  memory := s.memory.(profile := s.memory.profile.(lastTools := Names(planned.value))));
    raised := false;
  }

  /** A node, called by an executor. */
  method Visit(w: World, node: Node, s: State) returns (next: State, raised: bool)
    ensures next == RunNode(w, node, s) && raised == Raises(w, node, s)
  {
    if w.raises(node, s) {
      return s, true;
    }
    if node == CallToolsNode {
      next, raised := RunCallTools(w, s);
    } else {
      next, raised := Updated(w, node, s), false;
    }
  }

  /** An executor that began at `from` stands in front of node `at`, having done what the graph does up to there. */
  ghost predicate InStep(w: World, from: Node, start: State, visited: seq<Node>, state: State, at: Node) {
    var rest := UntilGeneration(w, at, state);
    UntilGeneration(w, from, start) == rest.(visited := visited + rest.visited)
  }

  lemma {:induction false} InStepAtStart(w: World, from: Node, start: State)
    ensures InStep(w, from, start, [], start, from)
  {
    var rest := UntilGeneration(w, from, start);
    assert [] + rest.visited == rest.visited;
  }

  lemma {:induction false} NextStep(w: World, from: Node, start: State, visited: seq<Node>, state: State, at: Node)
    requires InStep(w, from, start, visited, state, at) && at != GenerateNode && !at.Over()
    ensures InStep(w, from, start, visited + [at], RunNode(w, at, state), Next(w, at, state))
  {
    OneVisitLess(w, at, state);
    var rest := UntilGeneration(w, Next(w, at, state), RunNode(w, at, state));
    assert visited + ([at] + rest.visited) == visited + [at] + rest.visited;
  }

  lemma {:induction false} StopsHere(w: World, at: Node, s: State)
    requires at == GenerateNode || at.Over()
    ensures UntilGeneration(w, at, s) == Prepared([], s, at)
  {
  }

  lemma {:induction false} Arrived(w: World, from: Node, start: State, visited: seq<Node>, s: State, at: Node)
    requires InStep(w, from, start, visited, s, at) && (at == GenerateNode || at.Over())
    ensures UntilGeneration(w, from, start) == Prepared(visited, s, at)
  {
    StopsHere(w, at, s);
  }

  /** One visit of an executor that is in step with the graph. */
  method Proceed(w: World, ghost from: Node, ghost start: State, ghost visited: seq<Node>, node: Node, s: State)
    returns (next: State, raised: bool)
    requires InStep(w, from, start, visited, s, node) && node != GenerateNode && !node.Over()
    ensures InStep(w, from, start, visited + [node], next, if raised then Raised else Onward(w, node, next))
    ensures !raised ==> next.iteration == if node == RetrieveNode then s.iteration + 1 else s.iteration
  {
    NextStep(w, from, start, visited, s, node);
    OnlyRetrieveCounts(w, node, s);
    next, raised := Visit(w, node, s);
  }

  /** One round of the retrieval loop. */
  method RunRound(w: World, ghost start: State, ghost before: seq<Node>, s: State)
    returns (state: State, raised: bool, ghost visited: seq<Node>)
    requires InStep(w, LoadMemoryNode, start, before, s, RewriteNode)
    ensures InStep(w, LoadMemoryNode, start, visited, state, if raised then Raised else AfterGrade(state))
    ensures !raised ==> state.iteration == s.iteration + 1
  {
    state, raised := Proceed(w, LoadMemoryNode, start, before, RewriteNode, s);
    visited := before + [RewriteNode];
    if raised {
      return;
    }
    state, raised := Proceed(w, LoadMemoryNode, start, visited, RetrieveNode, state);
    visited := visited + [RetrieveNode];
    if raised {
      return;
    }
    state, raised := Proceed(w, LoadMemoryNode, start, visited, GradeNode, state);
    visited := visited + [GradeNode];
  }

  /** The retrieval branch of the fallback executor, up to generation. */
  method RetrieveSequentially(w: World, ghost start: State, ghost before: seq<Node>, routed: State)
    returns (state: State, raised: bool, ghost visited: seq<Node>)
    requires InStep(w, LoadMemoryNode, start, before, routed, RewriteNode)
    ensures InStep(w, LoadMemoryNode, start, visited, state, if raised then Raised else GenerateNode)
  {
    state, raised, visited := routed, false, before;
    while true
      invariant InStep(w, LoadMemoryNode, start, visited, state, RewriteNode) && !raised
      decreases VisitsLeft(RewriteNode, state.iteration)
    {
      state, raised, visited := RunRound(w, start, visited, state);
      if raised {
        return;
      }
      var next := AfterGrade(state);
      if next == RewriteNode {
        continue;
      }
      if next == CallToolsNode {
        state, raised := Proceed(w, LoadMemoryNode, start, visited, CallToolsNode, state);
        visited := visited + [CallToolsNode];
      }
      break;
    }
  }

  /** The classifier and the branches of the fallback executor. */
  method BranchSequentially(w: World, ghost start: State, ghost before: seq<Node>, guarded: State)
    returns (state: State, raised: bool, ghost visited: seq<Node>)
    requires InStep(w, LoadMemoryNode, start, before, guarded, ClassifyNode)
    ensures InStep(w, LoadMemoryNode, start, visited, state, if raised then Raised else GenerateNode)
  {
    state, raised := Proceed(w, LoadMemoryNode, start, before, ClassifyNode, guarded);
    visited := before + [ClassifyNode];
    if raised {
      return;
    }
    var branch := AfterRoute(w, state);
    if branch == RewriteNode {
      state, raised, visited := RetrieveSequentially(w, start, visited, state);
    } else if branch == CallToolsNode {
      state, raised := Proceed(w, LoadMemoryNode, start, visited, CallToolsNode, state);
      visited := visited + [CallToolsNode];
    }
  }

  /** Everything the fallback executor does before generation; a guarded turn is over then. */
  method PrepareSequentially(w: World, start: State)
    returns (state: State, at: Node, ghost visited: seq<Node>)
    ensures UntilGeneration(w, LoadMemoryNode, start) == Prepared(visited, state, at)
  {
    InStepAtStart(w, LoadMemoryNode, start);
    var raised;
    state, raised := Proceed(w, LoadMemoryNode, start, [], LoadMemoryNode, start);
    visited := [] + [LoadMemoryNode];
    if !raised {
      state, raised := Proceed(w, LoadMemoryNode, start, visited, GuardNode, state);
      visited := visited + [GuardNode];
      if !raised {
        if state.guarded {
          Arrived(w, LoadMemoryNode, start, visited, state, End);
          return state, End, visited;
        }
        state, raised, visited := BranchSequentially(w, start, visited, state);
      }
    }
    at := if raised then Raised else GenerateNode;
    Arrived(w, LoadMemoryNode, start, visited, state, at);
  }

  /** The fallback executor visits the nodes the compiled graph visits, ends in the same state, and raises exactly when
      the graph does, hence at the same node. */
  method RunSequential(w: World, start: State) returns (state: State, raised: bool, ghost visited: seq<Node>)
    ensures state == GraphRun(w, LoadMemoryNode, start).state
    ensures visited == GraphRun(w, LoadMemoryNode, start).visited
    ensures raised <==> GraphRun(w, LoadMemoryNode, start).end == Raised
  {
    GenerationComesLast(w, LoadMemoryNode, start);
    var at;
    state, at, visited := PrepareSequentially(w, start);
    raised := at == Raised;
    if at == GenerateNode {
      state, raised := Visit(w, GenerateNode, state);
      visited := visited + [GenerateNode];
    }
  }

  // ---------------------------------------------------------------- every run

  /** Tools, when they run, run last before the generation. */
  predicate EndsInTools(visited: seq<Node>) {
    visited != [] && visited[|visited| - 1] == CallToolsNode
  }

  /** The nodes before generation of a turn that did not raise. */
  predicate PossibleVisits(v: seq<Node>) {
    v == [LoadMemoryNode, GuardNode] ||
    v == OPENING || v == OPENING + [CallToolsNode] ||
    v == OPENING + ROUND || v == OPENING + (ROUND + ROUND) || v == OPENING + (ROUND + ROUND + [CallToolsNode])
  }

  /** The visits of a part of a turn: all of one of these ways or, when it raised, a beginning of the longest one. */
  predicate Took(p: Prepared, ways: set<seq<Node>>, longest: seq<Node>) {
    p.visited <= longest && (p.stopsAt == Raised ==> p.visited != []) && (p.stopsAt != Raised ==> p.visited in ways)
  }

  lemma {:induction false} PrefixBehind<T>(a: seq<T>, b: seq<T>, c: seq<T>)
    requires b <= c
    ensures a + b <= a + c
  {
  }

  /** From a node on: itself, and then what comes behind it. */
  lemma {:induction false} Unfold(w: World, node: Node, s: State)
    requires node != GenerateNode && !node.Over()
    ensures var p, rest := UntilGeneration(w, node, s), UntilGeneration(w, Next(w, node, s), RunNode(w, node, s));
      p == rest.(visited := [node] + rest.visited) &&
      (Next(w, node, s) == Raised ==> rest == Prepared([], s, Raised))
  {
    OneVisitLess(w, node, s);
  }

  lemma {:induction false} ToolsUnfold(w: World, s: State)
    ensures UntilGeneration(w, CallToolsNode, s) ==
      Prepared([CallToolsNode], RunNode(w, CallToolsNode, s), Next(w, CallToolsNode, s))
  {
    Unfold(w, CallToolsNode, s);
    StopsHere(w, Next(w, CallToolsNode, s), RunNode(w, CallToolsNode, s));
  }

  /** One visit on: a run from `from` is over with it, or goes on behind it. */
  lemma {:induction false} VisitUnfolds(w: World, from: Node, start: State, visited: seq<Node>, node: Node, s: State)
    requires InStep(w, from, start, visited, s, node) && node != GenerateNode && !node.Over()
    ensures var s' := RunNode(w, node, s);
      if Raises(w, node, s) then UntilGeneration(w, from, start) == Prepared(visited + [node], s', Raised)
      else
        InStep(w, from, start, visited + [node], s', Onward(w, node, s')) &&
        s'.iteration == if node == RetrieveNode then s.iteration + 1 else s.iteration
  {
    NextStep(w, from, start, visited, s, node);
    OnlyRetrieveCounts(w, node, s);
    if Raises(w, node, s) {
      Arrived(w, from, start, visited + [node], RunNode(w, node, s), Raised);
    }
  }

  /** A round that began at the query rewriting broke off, or left this state. */
  ghost predicate RoundFrom(w: World, s: State, g: State, iteration: nat) {
    var p := UntilGeneration(w, RewriteNode, s);
    (p.stopsAt == Raised && p.visited != [] && p.visited <= ROUND) ||
    (g.iteration == iteration && InStep(w, RewriteNode, s, ROUND, g, AfterGrade(g)))
  }

  lemma {:induction false} GradeUnfolds(w: World, s: State, b: State) returns (g: State)
    requires InStep(w, RewriteNode, s, [RewriteNode, RetrieveNode], b, GradeNode)
    ensures RoundFrom(w, s, g, b.iteration)
  {
    g := RunNode(w, GradeNode, b);
    VisitUnfolds(w, RewriteNode, s, [RewriteNode, RetrieveNode], GradeNode, b);
    assert [RewriteNode, RetrieveNode] + [GradeNode] == ROUND;
  }

  lemma {:induction false} RetrieveUnfolds(w: World, s: State, a: State) returns (g: State)
    requires InStep(w, RewriteNode, s, [RewriteNode], a, RetrieveNode)
    ensures RoundFrom(w, s, g, a.iteration + 1)
  {
    VisitUnfolds(w, RewriteNode, s, [RewriteNode], RetrieveNode, a);
    assert [RewriteNode] + [RetrieveNode] == [RewriteNode, RetrieveNode];
    if Raises(w, RetrieveNode, a) {
      g := a;
    } else {
      g := GradeUnfolds(w, s, RunNode(w, RetrieveNode, a));
    }
  }

  /** One round of the retrieval loop. */
  lemma {:induction false} RoundUnfolds(w: World, s: State) returns (g: State)
    ensures RoundFrom(w, s, g, s.iteration + 1)
  {
    InStepAtStart(w, RewriteNode, s);
    VisitUnfolds(w, RewriteNode, s, [], RewriteNode, s);
    assert [] + [RewriteNode] == [RewriteNode];
    if Raises(w, RewriteNode, s) {
      g := s;
    } else {
      g := RetrieveUnfolds(w, s, RunNode(w, RewriteNode, s));
    }
  }

  lemma {:induction false} SecondRound(w: World, s: State)
    requires s.iteration == 1
    ensures Took(UntilGeneration(w, RewriteNode, s), {ROUND, ROUND + [CallToolsNode]}, ROUND + [CallToolsNode])
  {
    var g := RoundUnfolds(w, s);
    if InStep(w, RewriteNode, s, ROUND, g, AfterGrade(g)) && g.iteration == s.iteration + 1 {
      if AfterGrade(g) == CallToolsNode {
        ToolsUnfold(w, g);
      } else {
        assert ROUND + [] == ROUND;
      }
    }
  }

  /** From the query rewriting on: one or two rounds, and tools only after the second. */
  lemma {:induction false} RoundsTaken(w: World, s: State)
    requires s.iteration == 0
    ensures Took(UntilGeneration(w, RewriteNode, s), {ROUND, ROUND + ROUND, ROUND + ROUND + [CallToolsNode]},
                 ROUND + ROUND + [CallToolsNode])
  {
    var g := RoundUnfolds(w, s);
    var p := UntilGeneration(w, RewriteNode, s);
    assert ROUND + (ROUND + [CallToolsNode]) == ROUND + ROUND + [CallToolsNode];
    if InStep(w, RewriteNode, s, ROUND, g, AfterGrade(g)) && g.iteration == s.iteration + 1 {
      var rest := UntilGeneration(w, AfterGrade(g), g);
      if AfterGrade(g) == RewriteNode {
        SecondRound(w, g);
        PrefixBehind(ROUND, rest.visited, ROUND + [CallToolsNode]);
      } else {
        assert ROUND + [] == ROUND;
      }
    } else {
      PrefixBehind(ROUND, [], ROUND + [CallToolsNode]);
    }
  }

  const TO_TOOLS := OPENING + [CallToolsNode]
  const LONGEST := OPENING + (ROUND + ROUND + [CallToolsNode])

  /** The nodes before generation of a turn: one of the six ways, the shortest exactly when the guard ended it; or a
      beginning of one, when a node raised. */
  predicate OnOneWay(v: seq<Node>, stopsAt: Node) {
    if stopsAt == Raised then v != [] && (v <= TO_TOOLS || v <= LONGEST)
    else PossibleVisits(v) && (stopsAt == End <==> |v| == 2)
  }

  lemma {:induction false} StaysPast(w: World, node: Node, s: State)
    requires !node.Over() && node != LoadMemoryNode && node != GuardNode && node != GenerateNode
    ensures Next(w, node, s) != LoadMemoryNode && Next(w, node, s) != GuardNode && Next(w, node, s) != End
  {
    EdgeTaken(w, node, RunNode(w, node, s));
  }

  /** Past the guard every way leads to the generation, unless a node raises. */
  lemma {:induction false} RestGenerates(w: World, node: Node, s: State)
    requires node != LoadMemoryNode && node != GuardNode && node != End
    ensures UntilGeneration(w, node, s).stopsAt in {GenerateNode, Raised}
    decreases VisitsLeft(node, s.iteration)
  {
    if node != Raised && node != GenerateNode {
      OneVisitLess(w, node, s);
      StaysPast(w, node, s);
      RestGenerates(w, Next(w, node, s), RunNode(w, node, s));
    }
  }

  lemma {:induction false} FromRouteOn(w: World, next: Node, c: State)
    requires c.iteration == 0 && next in {GenerateNode, CallToolsNode, RewriteNode}
    ensures var p := UntilGeneration(w, next, c);
      OnOneWay(OPENING + p.visited, p.stopsAt)
  {
    var p := UntilGeneration(w, next, c);
    assert OPENING + [] == OPENING;
    RestGenerates(w, next, c);
    if next == RewriteNode {
      RoundsTaken(w, c);
      PrefixBehind(OPENING, p.visited, ROUND + ROUND + [CallToolsNode]);
    } else if next == CallToolsNode {
      ToolsUnfold(w, c);
    }
  }

  lemma {:induction false} FromClassifyOn(w: World, s: State)
    requires s.iteration == 0
    ensures var p := UntilGeneration(w, ClassifyNode, s);
      OnOneWay([LoadMemoryNode, GuardNode] + p.visited, p.stopsAt)
  {
    var c := RunNode(w, ClassifyNode, s);
    var rest := UntilGeneration(w, Next(w, ClassifyNode, s), c);
    Unfold(w, ClassifyNode, s);
    assert [LoadMemoryNode, GuardNode] + ([ClassifyNode] + rest.visited) == OPENING + rest.visited;
    if Raises(w, ClassifyNode, s) {
      assert OPENING + [] == OPENING;
    } else {
      OnlyRetrieveCounts(w, ClassifyNode, s);
      FromRouteOn(w, AfterRoute(w, c), c);
    }
  }

  lemma {:induction false} FromGuardOn(w: World, s: State)
    requires s.iteration == 0
    ensures var p := UntilGeneration(w, GuardNode, s);
      OnOneWay([LoadMemoryNode] + p.visited, p.stopsAt)
  {
    var g := RunNode(w, GuardNode, s);
    var rest := UntilGeneration(w, Next(w, GuardNode, s), g);
    Unfold(w, GuardNode, s);
    assert [LoadMemoryNode] + ([GuardNode] + rest.visited) == [LoadMemoryNode, GuardNode] + rest.visited;
    if Raises(w, GuardNode, s) {
      assert [LoadMemoryNode, GuardNode] + [] == [LoadMemoryNode, GuardNode];
    } else if g.guarded {
      StopsHere(w, End, g);
      assert [LoadMemoryNode, GuardNode] + [] == [LoadMemoryNode, GuardNode];
    } else {
      OnlyRetrieveCounts(w, GuardNode, s);
      FromClassifyOn(w, g);
    }
  }

  /** Whatever models, retrieval and tools answer, a turn takes one of six ways to the generation: it retrieves at most
      twice, calls tools at most once, after retrieving only when both rounds have failed, and visits at most eleven
      nodes with the generation. Only the guard ends a turn early; a turn that raises has begun one of these ways. */
  lemma {:induction false} SixWays(w: World, start: State)
    requires start.iteration == 0
    ensures var p := UntilGeneration(w, LoadMemoryNode, start);
      OnOneWay(p.visited, p.stopsAt)
    ensures |GraphRun(w, LoadMemoryNode, start).visited| <= 11
  {
    Unfold(w, LoadMemoryNode, start);
    if !Raises(w, LoadMemoryNode, start) {
      OnlyRetrieveCounts(w, LoadMemoryNode, start);
      FromGuardOn(w, RunNode(w, LoadMemoryNode, start));
    }
  }

  // ---------------------------------------------------------------- when a turn raises

  /** A node a run arrives at, and the state it arrives in. */
  datatype Arrival = Arrival(node: Node, state: State)

  function Arrivals(w: World, node: Node, s: State): (a: seq<Arrival>)
    ensures !node.Over() ==> a != []
    decreases VisitsLeft(node, s.iteration)
  {
    if node.Over() then []
    else
      OneVisitLess(w, node, s);
      [Arrival(node, s)] + Arrivals(w, Next(w, node, s), RunNode(w, node, s))
  }

  predicate RaisesThere(w: World, a: Arrival) {
    Raises(w, a.node, a.state)
  }

  /** Only the last of these arrivals raises, if any does. */
  ghost predicate OnlyLastRaises(w: World, a: seq<Arrival>, raised: bool) {
    (forall i :: 0 <= i < |a| - 1 ==> !RaisesThere(w, a[i])) &&
    (raised <==> a != [] && RaisesThere(w, a[|a| - 1]))
  }

  ghost predicate SameNodes(visited: seq<Node>, a: seq<Arrival>) {
    |visited| == |a| && forall i :: 0 <= i < |a| ==> visited[i] == a[i].node
  }

  lemma {:induction false} OneArrivalMore(w: World, first: Arrival, behind: seq<Arrival>, visited: seq<Node>,
                                          raised: bool)
    requires !RaisesThere(w, first) && OnlyLastRaises(w, behind, raised) && SameNodes(visited, behind)
    ensures OnlyLastRaises(w, [first] + behind, raised) && SameNodes([first.node] + visited, [first] + behind)
  {
    var a := [first] + behind;
    forall i | 0 <= i < |a| - 1 ensures !RaisesThere(w, a[i]) {
      if i > 0 { assert a[i] == behind[i - 1]; }
    }
    if behind != [] { assert a[|a| - 1] == behind[|behind| - 1]; }
  }

  lemma {:induction false} ArrivalsUnfold(w: World, node: Node, s: State)
    requires !node.Over()
    ensures var next, s' := Next(w, node, s), RunNode(w, node, s);
      var r, rest := GraphRun(w, node, s), GraphRun(w, next, s');
      r == rest.(visited := [node] + rest.visited) &&
      Arrivals(w, node, s) == [Arrival(node, s)] + Arrivals(w, next, s') &&
      (next == Raised ==> rest == Run([], s, Raised) && Arrivals(w, next, s') == [])
  {
    OneVisitLess(w, node, s);
  }

  lemma {:induction false} StaysOut(w: World, node: Node, s: State)
    requires !node.Over()
    ensures Onward(w, node, s) != Raised
  {
    EdgeTaken(w, node, s);
  }

  /** Only the last node a run arrives at can raise, and the run ends with an exception exactly when it does. Then it
      stays in the state it arrived in. */
  lemma {:induction false} RaisesExactlyWhen(w: World, node: Node, s: State)
    requires node != Raised
    ensures var r, a := GraphRun(w, node, s), Arrivals(w, node, s);
      SameNodes(r.visited, a) && OnlyLastRaises(w, a, r.end == Raised) &&
      (r.end == Raised ==> r.state == a[|a| - 1].state)
    decreases VisitsLeft(node, s.iteration)
  {
    if !node.Over() {
      OneVisitLess(w, node, s);
      ArrivalsUnfold(w, node, s);
      if !Raises(w, node, s) {
        var next, s' := Next(w, node, s), RunNode(w, node, s);
        StaysOut(w, node, s');
        RaisesExactlyWhen(w, next, s');
        OneArrivalMore(w, Arrival(node, s), Arrivals(w, next, s'), GraphRun(w, next, s').visited,
                       GraphRun(w, next, s').end == Raised);
      }
    }
  }

  predicate PlanRaises(w: World, s: State) {
    Offered(s.route, w.registry) != {} && Malformed(w.plan(WithFilters(w, s)))
  }

  /** The exact case of the tools: besides its own exceptions, a registered tool on the route and a reply of the planner
      that cannot be walked through. */
  lemma {:induction false} ToolsRaiseExactlyWhen(w: World, s: State)
    ensures Raises(w, CallToolsNode, s) <==> w.raises(CallToolsNode, s) || PlanRaises(w, s)
  {
  }

  /** The state in which a run arrives at the tools; None when it never does. */
  function BeforeTools(w: World, node: Node, s: State): Option<State>
    decreases VisitsLeft(node, s.iteration)
  {
    if node.Over() || node == GenerateNode then None
    else if node == CallToolsNode then Some(s)
    else
      OneVisitLess(w, node, s);
      BeforeTools(w, Next(w, node, s), RunNode(w, node, s))
  }

  lemma {:induction false} ToolsRaiseThrough(w: World, s: State)
    requires !w.raises(CallToolsNode, s) && !w.raises(GenerateNode, RunNode(w, CallToolsNode, s))
    ensures GraphRun(w, CallToolsNode, s).end == Raised <==> PlanRaises(w, s)
  {
    GenerationComesLast(w, CallToolsNode, s);
    ToolsUnfold(w, s);
    ToolsRaiseExactlyWhen(w, s);
  }

  lemma {:induction false} OneNodeOn(w: World, node: Node, s: State)
    requires !node.Over() && node != CallToolsNode && !w.raises(node, s)
    ensures var next, s' := Next(w, node, s), RunNode(w, node, s);
      next != Raised && GraphRun(w, node, s).end == GraphRun(w, next, s').end &&
      (node != GenerateNode ==> BeforeTools(w, node, s) == BeforeTools(w, next, s')) &&
      (node == GenerateNode ==> next == End)
  {
  }

  /** Where no node raises by itself, a turn raises exactly when it arrives at the tools on a route that has a
      registered one, and the model answers the planner with something that cannot be walked through. */
  lemma {:induction false} PlannerRaisesExactlyWhen(w: World, node: Node, s: State)
    requires node != Raised && forall n: Node, x: State :: !w.raises(n, x)
    ensures var t := BeforeTools(w, node, s);
      GraphRun(w, node, s).end == Raised <==> t.Some? && PlanRaises(w, t.value)
    decreases VisitsLeft(node, s.iteration)
  {
    if node == CallToolsNode {
      ToolsRaiseThrough(w, s);
    } else if node != End {
      OneVisitLess(w, node, s);
      OneNodeOn(w, node, s);
      PlannerRaisesExactlyWhen(w, Next(w, node, s), RunNode(w, node, s));
    }
  }

  // ---------------------------------------------------------------- tool safety

  ghost predicate ToolsOnMenu(s: State) {
    |s.toolResults| <= 3 && forall r :: r in s.toolResults ==> OnMenu(r.name, s.route)
  }

  lemma {:induction false} ResultsOnMenu(w: World, s: State, calls: seq<Call>, route: string)
    requires forall c :: c in calls ==> OnMenu(c.name, route)
    ensures forall r :: r in Results(w, s, calls) ==> OnMenu(r.name, route)
  {
    var results := Results(w, s, calls);
    forall r | r in results ensures OnMenu(r.name, route) {
      var i :| 0 <= i < |results| && results[i] == r;
      assert calls[i] in calls;
    }
  }

  lemma {:induction false} CallToolsSafely(w: World, s: State)
    requires s.route in ROUTE_VALUES && s.toolResults == []
    ensures ToolsOnMenu(CallTools(w, s))
  {
    var seen := WithFilters(w, s);
    CallsStayOnMenu(s.route, w.registry, w.plan(seen), TurnOf(w, seen));
    if Offered(s.route, w.registry) != {} && CallsOf(w, s).Some? {
      ResultsOnMenu(w, seen, CallsOf(w, s).value, s.route);
      assert [] + Results(w, seen, CallsOf(w, s).value) == Results(w, seen, CallsOf(w, s).value);
    }
  }

  /** The classifier only ever settles on a known route, even when the model names another one. */
  lemma {:induction false} RouteIsKnown(w: World, s: State)
    ensures Classify(w, s).route in ROUTE_VALUES
  {
    var fallback := KeywordRoute(w, s.question);
    if w.modelAvailable && w.classify(s).Some? {
      assert Classify(w, s).route == fallback || Classify(w, s).route in ROUTE_VALUES;
    } else {
      assert Classify(w, s).route == fallback;
    }
  }

  lemma {:induction false} ClassifyCallsNothing(w: World, s: State)
    ensures Classify(w, s).toolResults == s.toolResults
  {
  }

  lemma {:induction false} OtherNodesCallNothing(w: World, node: Node, s: State)
    requires node != CallToolsNode && node != ClassifyNode
    ensures RunNode(w, node, s).toolResults == s.toolResults && RunNode(w, node, s).route == s.route
  {
  }

  /** Every tool a turn executes is on the menu of the route it was classified into, and there are at most three. */
  lemma {:induction false} ToolSafety(w: World, node: Node, s: State)
    requires s.route in ROUTE_VALUES
    requires if node == GenerateNode || node.Over() then ToolsOnMenu(s) else s.toolResults == []
    ensures var p := UntilGeneration(w, node, s);
      p.state.route in ROUTE_VALUES && ToolsOnMenu(p.state) &&
      (!EndsInTools(p.visited) || p.stopsAt == Raised ==> p.state.toolResults == s.toolResults)
    decreases VisitsLeft(node, s.iteration)
  {
    if node == CallToolsNode {
      ToolsUnfold(w, s);
      CallToolsSafely(w, s);
    } else if node != GenerateNode && !node.Over() {
      OneVisitLess(w, node, s);
      if node == ClassifyNode {
        RouteIsKnown(w, s);
        ClassifyCallsNothing(w, s);
      } else {
        OtherNodesCallNothing(w, node, s);
      }
      ToolSafety(w, Next(w, node, s), RunNode(w, node, s));
    }
  }
}
