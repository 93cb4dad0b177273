/** The streaming entry point of the chat agent and the buffered one, side by side. */
module AgentStream {
  import opened Outcomes
  import opened AgentGraph
  import Decimal
  import Text
  import opened ToolPlanning

  /** What a finished turn reports. */
  datatype Reported = Reported(
    answer: string,
    sources: seq<Source>,
    toolResults: seq<ToolResult>,
    route: string,
    degraded: bool,
    usage: nat
  )

  datatype Event =
    | Token(text: string)
    | ToolStart(route: string)
    | ToolEnd(name: string, ok: bool, error: string)
    | Sources(sources: seq<Source>)
    | Error
    | Done(turn: Reported)

  function Report(s: State): Reported {
    Reported(s.answer, s.sources, s.toolResults, s.route, s.degraded, s.usage)
  }

  // ---------------------------------------------------------------- what the stream has to look like

  function ToolEnds(results: seq<ToolResult>): (events: seq<Event>)
    ensures |events| == |results|
    ensures forall i :: 0 <= i < |results| ==> events[i] == ToolEnd(results[i].name, results[i].ok, results[i].error)
  {
    if results == [] then []
    else
      var last := results[|results| - 1];
      ToolEnds(results[..|results| - 1]) + [ToolEnd(last.name, last.ok, last.error)]
  }

  /** One token for every piece that is not empty. */
  function Tokens(pieces: seq<string>): seq<Event> {
    if pieces == [] then []
    else
      var last := pieces[|pieces| - 1];
      Tokens(pieces[..|pieces| - 1]) + if last == "" then [] else [Token(last)]
  }

  function ToolEvents(p: Prepared): seq<Event> {
    if EndsInTools(p.visited) then [ToolStart(p.state.route)] + ToolEnds(p.state.toolResults) else []
  }

  function Citations(sources: seq<Source>): seq<Event> {
    if sources != [] then [Sources(sources)] else []
  }

  function Ending(raised: bool, done: Event): seq<Event> {
    if raised then [Error, done] else [done]
  }

  function StreamedState(w: World, s: State): State {
    s.(answer := Text.Join("", w.stream(s).pieces))
  }

  /** Both entry points build the prompt outside the section that catches the exceptions of the model. */
  predicate StreamRaises(w: World, p: Prepared) {
    p.stopsAt == Raised || (p.stopsAt == GenerateNode && Raises(w, GenerateNode, p.state))
  }

  /** The events of a turn, from what it prepared: its tool calls and citations, a token for each piece of the reply,
      and the end. A turn that raises leaves the events it has sent by then. */
  function EventsOf(w: World, p: Prepared): seq<Event> {
    if p.stopsAt == End then [Token(p.state.answer), Done(Report(p.state))]
    else if p.stopsAt == Raised then ToolEvents(p)
    else if Raises(w, GenerateNode, p.state) then ToolEvents(p) + Citations(p.state.sources)
    else
      var reply := w.stream(p.state);
      ToolEvents(p) + Citations(p.state.sources) + Tokens(reply.pieces) +
      Ending(reply.raised, Done(Report(StreamedState(w, p.state))))
  }

  // ---------------------------------------------------------------- the streaming executor

  method EmitToolEnds(results: seq<ToolResult>) returns (events: seq<Event>)
    ensures events == ToolEnds(results)
  {
    events := [];
    for i := 0 to |results|
      invariant events == ToolEnds(results[..i])
    {
      assert results[..i + 1][..i] == results[..i];
      events := events + [ToolEnd(results[i].name, results[i].ok, results[i].error)];
    }
    assert results[..|results|] == results;
  }

  /** The tools, with their events; a state that holds earlier results keeps them and they are not announced again. */
  method StreamTools(w: World, s: State) returns (next: State, raised: bool, events: seq<Event>)
    ensures next == RunNode(w, CallToolsNode, s) && raised == Raises(w, CallToolsNode, s)
    ensures s.toolResults <= next.toolResults && (raised ==> next.toolResults == s.toolResults)
    ensures events == [ToolStart(s.route)] + ToolEnds(next.toolResults[|s.toolResults|..])
  {
    var before := |s.toolResults|;
    events := [ToolStart(s.route)];
    next, raised := Visit(w, CallToolsNode, s);
    if raised {
      return;
    }
    var ends := EmitToolEnds(next.toolResults[before..]);
    events := events + ends;
  }

  method StreamTokens(pieces: seq<string>) returns (events: seq<Event>, answer: string)
    ensures events == Tokens(pieces) && answer == Text.Join("", pieces)
  {
    events := [];
    var chunks: seq<string> := [];
    for i := 0 to |pieces|
      invariant events == Tokens(pieces[..i])
      invariant Text.Join("", chunks) == Text.Join("", pieces[..i])
    {
      assert pieces[..i + 1][..i] == pieces[..i];
      assert pieces[..i + 1] == pieces[..i] + [pieces[i]];
      Text.ConcatLast(pieces[..i], pieces[i]);
      if pieces[i] != "" {
        Text.ConcatLast(chunks, pieces[i]);
        chunks := chunks + [pieces[i]];
        events := events + [Token(pieces[i])];
      }
    }
    assert pieces[..|pieces|] == pieces;
    answer := Text.Join("", chunks);
  }

  /** Where a turn stands that has not announced anything yet. */
  ghost predicate Silent(w: World, start: State, visited: seq<Node>, s: State, at: Node) {
    InStep(w, LoadMemoryNode, start, visited, s, at) && s.toolResults == [] && !EndsInTools(visited)
  }

  /** Where it stands when it is through with its tools, or has raised. */
  ghost predicate Announced(w: World, start: State, visited: seq<Node>, s: State, raised: bool, events: seq<Event>) {
    var at := if raised then Raised else GenerateNode;
    InStep(w, LoadMemoryNode, start, visited, s, at) && events == ToolEvents(Prepared(visited, s, at))
  }

  lemma {:induction false} OnlyToolsHaveResults(w: World, node: Node, s: State)
    requires node != CallToolsNode
    ensures RunNode(w, node, s).toolResults == s.toolResults
  {
    if node == ClassifyNode {
      ClassifyCallsNothing(w, s);
    } else {
      OtherNodesCallNothing(w, node, s);
    }
  }

  /** One visit to a node that calls no tools. */
  method ProceedSilently(w: World, ghost start: State, ghost visited: seq<Node>, node: Node, s: State)
    returns (next: State, raised: bool)
    requires Silent(w, start, visited, s, node) && !node.Over() && node != CallToolsNode && node != GenerateNode
    ensures Silent(w, start, visited + [node], next, if raised then Raised else Onward(w, node, next))
    ensures !raised ==> next.iteration == if node == RetrieveNode then s.iteration + 1 else s.iteration
  {
    NextStep(w, LoadMemoryNode, start, visited, s, node);
    OnlyRetrieveCounts(w, node, s);
    OnlyToolsHaveResults(w, node, s);
    next, raised := Visit(w, node, s);
  }

  /** One round of the retrieval loop. */
  method RetrieveOnce(w: World, ghost start: State, ghost before: seq<Node>, s: State)
    returns (state: State, raised: bool, ghost visited: seq<Node>)
    requires Silent(w, start, before, s, RewriteNode)
    ensures Silent(w, start, visited, state, if raised then Raised else AfterGrade(state))
    ensures !raised ==> state.iteration == s.iteration + 1
  {
    state, raised := ProceedSilently(w, start, before, RewriteNode, s);
    visited := before + [RewriteNode];
    if raised {
      return;
    }
    state, raised := ProceedSilently(w, start, visited, RetrieveNode, state);
    visited := visited + [RetrieveNode];
    if raised {
      return;
    }
    state, raised := ProceedSilently(w, start, visited, GradeNode, state);
    visited := visited + [GradeNode];
  }

  lemma {:induction false} AllAnnounced(visited: seq<Node>, s: State, events: seq<Event>, at: Node)
    requires events == [ToolStart(s.route)] + ToolEnds(s.toolResults[0..])
    ensures events == ToolEvents(Prepared(visited + [CallToolsNode], s, at))
  {
    assert s.toolResults[0..] == s.toolResults;
  }

  lemma {:induction false} ToolsKeepRoute(w: World, s: State)
    ensures RunNode(w, CallToolsNode, s).route == s.route
  {
  }

  method AnnounceTools(w: World, ghost start: State, ghost visited: seq<Node>, s: State)
    returns (next: State, raised: bool, events: seq<Event>)
    requires Silent(w, start, visited, s, CallToolsNode)
    ensures Announced(w, start, visited + [CallToolsNode], next, raised, events)
  {
    NextStep(w, LoadMemoryNode, start, visited, s, CallToolsNode);
    ToolsKeepRoute(w, s);
    next, raised, events := StreamTools(w, s);
    AllAnnounced(visited, next, events, if raised then Raised else GenerateNode);
  }

  /** The retrieval branch, up to generation. */
  method PrepareByRetrieval(w: World, ghost start: State, ghost before: seq<Node>, routed: State)
    returns (state: State, raised: bool, events: seq<Event>, ghost visited: seq<Node>)
    requires Silent(w, start, before, routed, RewriteNode)
    ensures Announced(w, start, visited, state, raised, events)
  {
    state, raised, events, visited := routed, false, [], before;
    while true
      invariant Silent(w, start, visited, state, RewriteNode) && events == [] && !raised
      decreases VisitsLeft(RewriteNode, state.iteration)
    {
      state, raised, visited := RetrieveOnce(w, start, visited, state);
      if raised {
        return;
      }
      var next := AfterGrade(state);
      if next == RewriteNode {
        continue;
      }
      if next == CallToolsNode {
        state, raised, events := AnnounceTools(w, start, visited, state);
        visited := visited + [CallToolsNode];
      }
      break;
    }
  }

  /** The classifier and the branches of the streaming executor. */
  method PrepareBranch(w: World, ghost start: State, ghost before: seq<Node>, guarded: State)
    returns (state: State, raised: bool, events: seq<Event>, ghost visited: seq<Node>)
    requires Silent(w, start, before, guarded, ClassifyNode)
    ensures Announced(w, start, visited, state, raised, events)
  {
    events := [];
    state, raised := ProceedSilently(w, start, before, ClassifyNode, guarded);
    visited := before + [ClassifyNode];
    if raised {
      return;
    }
    var branch := AfterRoute(w, state);
    if branch == RewriteNode {
      state, raised, events, visited := PrepareByRetrieval(w, start, visited, state);
    } else if branch == CallToolsNode {
      state, raised, events := AnnounceTools(w, start, visited, state);
      visited := visited + [CallToolsNode];
    }
  }

  /** Everything up to generation, with the tool events as they happen; `at` is where that leaves the turn. */
  method Prepare(w: World, start: State)
    returns (state: State, at: Node, events: seq<Event>, ghost visited: seq<Node>)
    requires start.toolResults == []
    ensures state == UntilGeneration(w, LoadMemoryNode, start).state
    ensures at == UntilGeneration(w, LoadMemoryNode, start).stopsAt
    ensures visited == UntilGeneration(w, LoadMemoryNode, start).visited
    ensures events == ToolEvents(UntilGeneration(w, LoadMemoryNode, start))
  {
    InStepAtStart(w, LoadMemoryNode, start);
    var raised;
    events := [];
    state, raised := ProceedSilently(w, start, [], LoadMemoryNode, start);
    visited := [] + [LoadMemoryNode];
    if !raised {
      state, raised := ProceedSilently(w, start, visited, GuardNode, state);
      visited := visited + [GuardNode];
      if !raised {
        if state.guarded {
          Arrived(w, LoadMemoryNode, start, visited, state, End);
          return state, End, events, visited;
        }
        state, raised, events, visited := PrepareBranch(w, start, visited, state);
      }
    }
    at := if raised then Raised else GenerateNode;
    Arrived(w, LoadMemoryNode, start, visited, state, at);
  }

  method CiteSources(sources: seq<Source>) returns (events: seq<Event>)
    ensures events == Citations(sources)
  {
    events := [];
    if sources != [] {
      events := [Sources(sources)];
    }
  }

  method EndTurn(spoken: seq<Event>, raised: bool, state: State) returns (events: seq<Event>)
    ensures events == spoken + Ending(raised, Done(Report(state)))
  {
    if raised {
      events := spoken + [Error, Done(Report(state))];
    } else {
      events := spoken + [Done(Report(state))];
    }
  }

  /** The streaming entry point; `raised` tells that it broke off with an exception instead of finishing. */
  method StreamTurn(w: World, question: string, messages: seq<string>, locale: string)
    returns (events: seq<Event>, raised: bool)
    ensures var p := UntilGeneration(w, LoadMemoryNode, InitialState(question, messages, locale));
      events == EventsOf(w, p) && (raised <==> StreamRaises(w, p))
  {
    var state, at;
    ghost var visited;
    state, at, events, visited := Prepare(w, InitialState(question, messages, locale));
    if at == End {
      return [Token(state.answer), Done(Report(state))], false;
    }
    if at == Raised {
      return events, true;
    }
    var citations := CiteSources(state.sources);
    if Raises(w, GenerateNode, state) {
      return events + citations, true;
    }
    var reply := w.stream(state);
    var tokens, answer := StreamTokens(reply.pieces);
    state := state.(answer := answer);
    events := EndTurn(events + citations + tokens, reply.raised, state);
    raised := false;
  }

  /** The buffered entry point, over the compiled graph or over the fallback; None when it raises. */
  method AnswerTurn(w: World, graphAvailable: bool, question: string, messages: seq<string>, locale: string)
    returns (turn: Option<Reported>)
    ensures var r := GraphRun(w, LoadMemoryNode, InitialState(question, messages, locale));
      turn == if r.end == Raised then None else Some(Report(r.state))
  {
    var start := InitialState(question, messages, locale);
    if graphAvailable {
      var r := GraphRun(w, LoadMemoryNode, start);
      turn := if r.end == Raised then None else Some(Report(r.state));
    } else {
      var state, raised;
      ghost var visited;
      state, raised, visited := RunSequential(w, start);
      turn := if raised then None else Some(Report(state));
    }
  }

  // ---------------------------------------------------------------- the event protocol, as a client sees it

  datatype Phase = Opened | InTools | Cited | Speaking | Broken | Closed

  /** What may follow: (tool_start tool_end*)? sources? token* error? done. */
  function Follow(phase: Phase, e: Event): Option<Phase> {
    match (phase, e)
    case (Opened, ToolStart(_)) => Some(InTools)
    case (InTools, ToolEnd(_, _, _)) => Some(InTools)
    case (Opened, Sources(_)) => Some(Cited)
    case (InTools, Sources(_)) => Some(Cited)
    case (Opened, Token(_)) => Some(Speaking)
    case (InTools, Token(_)) => Some(Speaking)
    case (Cited, Token(_)) => Some(Speaking)
    case (Speaking, Token(_)) => Some(Speaking)
    case (Broken, Done(_)) => Some(Closed)
    case (Broken, _) => None
    case (Closed, _) => None
    case (_, Error) => Some(Broken)
    case (_, Done(_)) => Some(Closed)
    case _ => None
  }

  /** The phase a client is in after these events; None when they break the protocol. */
  function FollowAll(events: seq<Event>): Option<Phase> {
    if events == [] then Some(Opened)
    else
      match FollowAll(events[..|events| - 1])
      case None => None
      case Some(phase) => Follow(phase, events[|events| - 1])
  }

  lemma {:induction false} FollowOne(events: seq<Event>, e: Event)
    ensures FollowAll(events + [e]) ==
      (match FollowAll(events) case None => None case Some(phase) => Follow(phase, e))
  {
    assert (events + [e])[..|events|] == events;
  }

  lemma {:induction false} AppendOne(a: seq<Event>, b: seq<Event>, e: Event)
    ensures a + (b + [e]) == a + b + [e]
  {
  }

  lemma {:induction false} FollowToolEnds(events: seq<Event>, results: seq<ToolResult>)
    requires FollowAll(events) == Some(InTools)
    ensures FollowAll(events + ToolEnds(results)) == Some(InTools)
  {
    if results == [] {
      assert events + [] == events;
    } else {
      var last := results[|results| - 1];
      var init, e := ToolEnds(results[..|results| - 1]), ToolEnd(last.name, last.ok, last.error);
      FollowToolEnds(events, results[..|results| - 1]);
      FollowOne(events + init, e);
      AppendOne(events, init, e);
    }
  }

  predicate MayEnd(phase: Option<Phase>) {
    phase.Some? && phase.value in {Opened, InTools, Cited, Speaking}
  }

  lemma {:induction false} FollowTokens(events: seq<Event>, pieces: seq<string>)
    requires MayEnd(FollowAll(events))
    ensures MayEnd(FollowAll(events + Tokens(pieces)))
  {
    if pieces == [] {
      assert events + [] == events;
    } else {
      var last := pieces[|pieces| - 1];
      var init := Tokens(pieces[..|pieces| - 1]);
      FollowTokens(events, pieces[..|pieces| - 1]);
      if last == "" {
        assert init + [] == init;
      } else {
        FollowOne(events + init, Token(last));
        AppendOne(events, init, Token(last));
      }
    }
  }

  lemma {:induction false} FollowToolEvents(p: Prepared)
    ensures FollowAll(ToolEvents(p)) == Some(if EndsInTools(p.visited) then InTools else Opened)
  {
    FollowOne([], ToolStart(p.state.route));
    assert [] + [ToolStart(p.state.route)] == [ToolStart(p.state.route)];
    FollowToolEnds([ToolStart(p.state.route)], p.state.toolResults);
  }

  lemma {:induction false} FollowCitations(events: seq<Event>, sources: seq<Source>)
    requires FollowAll(events).Some? && FollowAll(events).value in {Opened, InTools}
    ensures FollowAll(events + Citations(sources)).Some?
    ensures FollowAll(events + Citations(sources)).value in {Opened, InTools, Cited}
  {
    if sources != [] {
      FollowOne(events, Sources(sources));
    } else {
      assert events + [] == events;
    }
  }

  lemma {:induction false} FollowBroken(spoken: seq<Event>, done: Event)
    requires MayEnd(FollowAll(spoken)) && done.Done?
    ensures FollowAll(spoken + [Error, done]) == Some(Closed)
  {
    FollowOne(spoken, Error);
    FollowOne(spoken + [Error], done);
    assert spoken + [Error, done] == spoken + [Error] + [done];
  }

  lemma {:induction false} FollowEnding(spoken: seq<Event>, raised: bool, done: Event)
    requires MayEnd(FollowAll(spoken)) && done.Done?
    ensures FollowAll(spoken + Ending(raised, done)) == Some(Closed)
  {
    if raised {
      FollowBroken(spoken, done);
    } else {
      FollowOne(spoken, done);
    }
  }

  lemma {:induction false} FollowGuarded(answer: string, done: Event)
    requires done.Done?
    ensures FollowAll([Token(answer), done]) == Some(Closed)
  {
    FollowOne([], Token(answer));
    assert [] + [Token(answer)] == [Token(answer)];
    FollowOne([Token(answer)], done);
    assert [Token(answer)] + [done] == [Token(answer), done];
  }

  lemma {:induction false} FollowReply(w: World, p: Prepared)
    requires p.stopsAt == GenerateNode && !Raises(w, GenerateNode, p.state)
    ensures FollowAll(EventsOf(w, p)) == Some(Closed)
  {
    var reply := w.stream(p.state);
    FollowToolEvents(p);
    FollowCitations(ToolEvents(p), p.state.sources);
    FollowTokens(ToolEvents(p) + Citations(p.state.sources), reply.pieces);
    FollowEnding(ToolEvents(p) + Citations(p.state.sources) + Tokens(reply.pieces), reply.raised,
                 Done(Report(StreamedState(w, p.state))));
  }

  /** Whatever a turn prepared, its events keep to the protocol, and they are closed exactly unless it raised. */
  lemma {:induction false} EventsFollowProtocol(w: World, p: Prepared)
    requires p.stopsAt in {End, GenerateNode, Raised}
    ensures FollowAll(EventsOf(w, p)).Some?
    ensures StreamRaises(w, p) ==> FollowAll(EventsOf(w, p)).value in {Opened, InTools, Cited}
    ensures !StreamRaises(w, p) ==> FollowAll(EventsOf(w, p)) == Some(Closed)
  {
    if p.stopsAt == End {
      FollowGuarded(p.state.answer, Done(Report(p.state)));
    } else if StreamRaises(w, p) {
      FollowToolEvents(p);
      FollowCitations(ToolEvents(p), p.state.sources);
    } else {
      FollowReply(w, p);
    }
  }

  lemma {:induction false} PrefixFollows(events: seq<Event>, rest: seq<Event>)
    requires FollowAll(events + rest).Some?
    ensures FollowAll(events).Some?
  {
    if rest == [] {
      assert events + [] == events;
    } else {
      var init := rest[..|rest| - 1];
      assert events + rest == events + init + [rest[|rest| - 1]];
      FollowOne(events + init, rest[|rest| - 1]);
      PrefixFollows(events, init);
    }
  }

  /** To follow the protocol so far is to be the beginning of a closed stream. */
  lemma {:induction false} BeginsClosedStream(events: seq<Event>)
    ensures FollowAll(events).Some? <==> exists rest :: FollowAll(events + rest) == Some(Closed)
  {
    if FollowAll(events) == Some(Closed) {
      assert events + [] == events;
    } else if FollowAll(events).Some? {
      var done := Done(Reported("", [], [], "", false, 0));
      FollowOne(events, done);
    }
    if rest :| FollowAll(events + rest) == Some(Closed) {
      PrefixFollows(events, rest);
    }
  }

  /** A stream raises exactly when the graph does. */
  lemma {:induction false} RaisesAlike(w: World, start: State)
    ensures var p, r := UntilGeneration(w, LoadMemoryNode, start), GraphRun(w, LoadMemoryNode, start);
      StreamRaises(w, p) <==> r.end == Raised
  {
    GenerationComesLast(w, LoadMemoryNode, start);
  }

  lemma {:induction false} RaisedCallsNothing(w: World, node: Node, s: State)
    requires UntilGeneration(w, node, s).stopsAt == Raised
    ensures UntilGeneration(w, node, s).state.toolResults == s.toolResults
    decreases VisitsLeft(node, s.iteration)
  {
    if node == CallToolsNode {
      ToolsUnfold(w, s);
    } else if node != Raised {
      OneVisitLess(w, node, s);
      OnlyToolsHaveResults(w, node, s);
      RaisedCallsNothing(w, Next(w, node, s), RunNode(w, node, s));
    }
  }

  lemma {:induction false} NotYetGenerated(w: World, node: Node, s: State)
    ensures GenerateNode !in UntilGeneration(w, node, s).visited
    decreases VisitsLeft(node, s.iteration)
  {
    if node != GenerateNode && !node.Over() {
      OneVisitLess(w, node, s);
      NotYetGenerated(w, Next(w, node, s), RunNode(w, node, s));
    }
  }

  /** The events of a turn that raised at this node, in this state. */
  function Cut(w: World, p: Prepared, last: Arrival): seq<Event> {
    if last.node == CallToolsNode then [ToolStart(last.state.route)]
    else if last.node == GenerateNode then ToolEvents(p) + Citations(last.state.sources)
    else []
  }

  lemma {:induction false} CutBeforeGeneration(w: World, p: Prepared, last: Arrival)
    requires p.stopsAt == Raised && p.visited != [] && p.visited[|p.visited| - 1] == last.node != GenerateNode
    requires p.state == last.state && p.state.toolResults == []
    ensures EventsOf(w, p) == Cut(w, p, last)
  {
    assert ToolEnds([]) == [];
  }

  lemma {:induction false} LastArrival(w: World, start: State, a: seq<Arrival>)
    requires a == Arrivals(w, LoadMemoryNode, start) && RaisesThere(w, a[|a| - 1])
    ensures var p, last := UntilGeneration(w, LoadMemoryNode, start), a[|a| - 1];
      p.state == last.state &&
      if p.stopsAt == Raised then p.visited != [] && p.visited[|p.visited| - 1] == last.node != GenerateNode
      else p.stopsAt == GenerateNode == last.node
  {
    GenerationComesLast(w, LoadMemoryNode, start);
    RaisesExactlyWhen(w, LoadMemoryNode, start);
    NotYetGenerated(w, LoadMemoryNode, start);
    var p, r := UntilGeneration(w, LoadMemoryNode, start), GraphRun(w, LoadMemoryNode, start);
    assert r.visited[|a| - 1] == a[|a| - 1].node;
    if p.stopsAt == Raised {
      assert p.visited[|a| - 1] in p.visited;
    }
  }

  lemma {:induction false} LastEvents(w: World, start: State, a: seq<Arrival>)
    requires start.toolResults == [] && a == Arrivals(w, LoadMemoryNode, start) && RaisesThere(w, a[|a| - 1])
    ensures var p := UntilGeneration(w, LoadMemoryNode, start);
      EventsOf(w, p) == Cut(w, p, a[|a| - 1])
  {
    var p := UntilGeneration(w, LoadMemoryNode, start);
    LastArrival(w, start, a);
    if p.stopsAt == Raised {
      RaisedCallsNothing(w, LoadMemoryNode, start);
      CutBeforeGeneration(w, p, a[|a| - 1]);
    }
  }

  /** No node the turn arrives at raises. */
  ghost predicate NothingRaises(w: World, a: seq<Arrival>) {
    forall i :: 0 <= i < |a| ==> !RaisesThere(w, a[i])
  }

  /** The stream of a turn begins a word of the protocol, and it is closed exactly when no node raised that the turn
      arrived at. Then nothing at all is sent, unless it was the tools, whose start the client sees, or the prompt,
      behind the citations. */
  ghost predicate KeepsProtocol(w: World, start: State) {
    var p, a := UntilGeneration(w, LoadMemoryNode, start), Arrivals(w, LoadMemoryNode, start);
    var events, last := EventsOf(w, p), a[|a| - 1];
    FollowAll(events).Some? && (FollowAll(events) == Some(Closed) <==> NothingRaises(w, a)) &&
    (RaisesThere(w, last) ==> events == Cut(w, p, last))
  }

  lemma {:induction false} RaisesSomewhere(w: World, start: State)
    ensures NothingRaises(w, Arrivals(w, LoadMemoryNode, start)) <==>
      !StreamRaises(w, UntilGeneration(w, LoadMemoryNode, start))
  {
    RaisesAlike(w, start);
    RaisesExactlyWhen(w, LoadMemoryNode, start);
    var a := Arrivals(w, LoadMemoryNode, start);
    assert OnlyLastRaises(w, a, GraphRun(w, LoadMemoryNode, start).end == Raised);
  }

  lemma {:induction false} StopsSomewhere(w: World, node: Node, s: State)
    ensures UntilGeneration(w, node, s).stopsAt in {End, GenerateNode, Raised}
  {
    assert UntilGeneration(w, node, s).stopsAt == GenerateNode || UntilGeneration(w, node, s).stopsAt.Over();
  }

  lemma {:induction false} StreamFollowsProtocol(w: World, start: State)
    requires start.toolResults == []
    ensures KeepsProtocol(w, start)
  {
    var a := Arrivals(w, LoadMemoryNode, start);
    RaisesSomewhere(w, start);
    StopsSomewhere(w, LoadMemoryNode, start);
    EventsFollowProtocol(w, UntilGeneration(w, LoadMemoryNode, start));
    if RaisesThere(w, a[|a| - 1]) {
      LastEvents(w, start, a);
    }
  }

  /** A model that routes every question to the web and answers the planner with {"calls": null}; the nodes raise where
      `raises` says so. */
  function NullCalls(raises: (Node, State) -> bool): World {
    World(
      (s: State) => s.memory,
      s => Pass,
      true,
      s => Some(("web", 1.0)),
      (route, text) => false,
      (s: State) => (s.question, 0),
      s => SearchResult([], [], false),
      s => JudgeFailed,
      (s, filters) => None,
      s => 0,
      {"web_search"},
      s => Replied(NotIterable),
      s => 0,
      (s, call) => Outcome(true, "", "", []),
      s => GenerationFailed,
      s => Pieces([], false),
      raises
    )
  }

  function Never(): (Node, State) -> bool {
    (node, s) => false
  }

  lemma {:induction false} NullCallsClassify(start: State, m: State) returns (c: State)
    requires InStep(NullCalls(Never()), LoadMemoryNode, start, [] + [LoadMemoryNode] + [GuardNode],
                    RunNode(NullCalls(Never()), GuardNode, m), ClassifyNode)
    ensures InStep(NullCalls(Never()), LoadMemoryNode, start, OPENING, c, CallToolsNode)
    ensures c.route == "web" && c.toolResults == m.toolResults
  {
    var w := NullCalls(Never());
    var g := RunNode(w, GuardNode, m);
    VisitUnfolds(w, LoadMemoryNode, start, [] + [LoadMemoryNode] + [GuardNode], ClassifyNode, g);
    c := RunNode(w, ClassifyNode, g);
    assert [] + [LoadMemoryNode] + [GuardNode] + [ClassifyNode] == OPENING;
  }

  lemma {:induction false} NullCallsReachTools(start: State) returns (c: State)
    ensures InStep(NullCalls(Never()), LoadMemoryNode, start, OPENING, c, CallToolsNode)
    ensures c.route == "web" && c.toolResults == start.toolResults
  {
    var w := NullCalls(Never());
    InStepAtStart(w, LoadMemoryNode, start);
    VisitUnfolds(w, LoadMemoryNode, start, [], LoadMemoryNode, start);
    var m := RunNode(w, LoadMemoryNode, start);
    VisitUnfolds(w, LoadMemoryNode, start, [] + [LoadMemoryNode], GuardNode, m);
    c := NullCallsClassify(start, m);
  }

  lemma {:induction false} NullCallsRaise(c: State)
    requires c.route == "web"
    ensures Raises(NullCalls(Never()), CallToolsNode, c)
  {
    assert RouteTools("web") == Some(["web_search"]);
    assert "web_search" in Offered("web", NullCalls(Never()).registry);
    ToolsRaiseExactlyWhen(NullCalls(Never()), c);
  }

  /** With null calls every stream breaks off behind its first event, and the buffered entry point raises. */
  lemma {:induction false} NullCallsBreakTheStream(question: string, messages: seq<string>, locale: string)
    ensures var w, start := NullCalls(Never()), InitialState(question, messages, locale);
      EventsOf(w, UntilGeneration(w, LoadMemoryNode, start)) == [ToolStart("web")] &&
      GraphRun(w, LoadMemoryNode, start).end == Raised
  {
    var w, start := NullCalls(Never()), InitialState(question, messages, locale);
    var c := NullCallsReachTools(start);
    NullCallsRaise(c);
    VisitUnfolds(w, LoadMemoryNode, start, OPENING, CallToolsNode, c);
    GenerationComesLast(w, LoadMemoryNode, start);
    CutBeforeGeneration(w, UntilGeneration(w, LoadMemoryNode, start), Arrival(CallToolsNode, c));
  }

  /** A bare number beyond every double: at least 310 digits, the first of them not a zero. */
  predicate Huge(question: string) {
    |question| >= 310 && Decimal.AllDigits(question) && question[0] != '0'
  }

  /** Loading the memory folds amounts of the question into the profile: a huge number is read as infinity, and turning
      infinity into an integer raises. */
  ghost predicate HugeNumbersRaise(w: World) {
    forall s: State :: Huge(s.question) ==> w.raises(LoadMemoryNode, s)
  }

  /** Then the stream ends before its first event, and the buffered entry point raises too, whatever the planner would
      have replied. */
  lemma {:induction false} HugeNumberBreaksTheStream(w: World, question: string, messages: seq<string>, locale: string)
    requires HugeNumbersRaise(w) && Huge(question)
    ensures var start := InitialState(question, messages, locale);
      EventsOf(w, UntilGeneration(w, LoadMemoryNode, start)) == [] && GraphRun(w, LoadMemoryNode, start).end == Raised
  {
    var start := InitialState(question, messages, locale);
    Unfold(w, LoadMemoryNode, start);
    GenerationComesLast(w, LoadMemoryNode, start);
  }

  /** A closed stream has exactly one done, and it comes last. */
  lemma {:induction false} DoneOnceAndLast(events: seq<Event>)
    requires FollowAll(events).Some?
    ensures forall i :: 0 <= i < |events| - 1 ==> !events[i].Done?
    ensures FollowAll(events) == Some(Closed) <==> |events| > 0 && events[|events| - 1].Done?
  {
    if events != [] {
      var init := events[..|events| - 1];
      DoneOnceAndLast(init);
      assert forall i :: 0 <= i < |init| ==> events[i] == init[i];
    }
  }

  // ---------------------------------------------------------------- what the client reads

  function TextOf(events: seq<Event>): string {
    if events == [] then ""
    else
      var e := events[|events| - 1];
      TextOf(events[..|events| - 1]) + if e.Token? then e.text else ""
  }

  function ToolsEnded(events: seq<Event>): nat {
    if events == [] then 0
    else ToolsEnded(events[..|events| - 1]) + if events[|events| - 1].ToolEnd? then 1 else 0
  }

  lemma {:induction false} TextAppend(a: seq<Event>, b: seq<Event>)
    ensures TextOf(a + b) == TextOf(a) + TextOf(b) && ToolsEnded(a + b) == ToolsEnded(a) + ToolsEnded(b)
  {
    if b == [] {
      assert a + b == a;
    } else {
      assert (a + b)[..|a + b| - 1] == a + b[..|b| - 1];
      TextAppend(a, b[..|b| - 1]);
    }
  }

  lemma {:induction false} OneMoreEvent(events: seq<Event>, e: Event)
    ensures TextOf(events + [e]) == TextOf(events) + if e.Token? then e.text else ""
    ensures ToolsEnded(events + [e]) == ToolsEnded(events) + if e.ToolEnd? then 1 else 0
  {
    assert (events + [e])[..|events|] == events;
  }

  lemma {:induction false} TokensLast(init: seq<string>, last: string)
    ensures TextOf(Tokens(init + [last])) == TextOf(Tokens(init)) + last
    ensures ToolsEnded(Tokens(init + [last])) == ToolsEnded(Tokens(init))
  {
    assert (init + [last])[..|init|] == init;
    if last != "" {
      OneMoreEvent(Tokens(init), Token(last));
    } else {
      assert Tokens(init) + [] == Tokens(init);
    }
  }

  lemma {:induction false} TokensSpell(pieces: seq<string>)
    ensures TextOf(Tokens(pieces)) == Text.Join("", pieces) && ToolsEnded(Tokens(pieces)) == 0
  {
    if pieces != [] {
      var init, last := pieces[..|pieces| - 1], pieces[|pieces| - 1];
      assert pieces == init + [last];
      TokensSpell(init);
      TokensLast(init, last);
      Text.ConcatLast(init, last);
    }
  }

  lemma {:induction false} ToolEndsAreSilent(results: seq<ToolResult>)
    ensures TextOf(ToolEnds(results)) == "" && ToolsEnded(ToolEnds(results)) == |results|
  {
    if results != [] {
      var init := ToolEnds(results[..|results| - 1]);
      ToolEndsAreSilent(results[..|results| - 1]);
      assert ToolEnds(results)[..|init|] == init;
    }
  }

  lemma {:induction false} SingleEvent(e: Event)
    ensures TextOf([e]) == (if e.Token? then e.text else "") && ToolsEnded([e]) == if e.ToolEnd? then 1 else 0
  {
    assert [e][..0] == [];
  }

  lemma {:induction false} ToolEventsAreSilent(p: Prepared)
    requires !EndsInTools(p.visited) ==> p.state.toolResults == []
    ensures TextOf(ToolEvents(p)) == "" && ToolsEnded(ToolEvents(p)) == |p.state.toolResults|
  {
    if EndsInTools(p.visited) {
      SingleEvent(ToolStart(p.state.route));
      ToolEndsAreSilent(p.state.toolResults);
      TextAppend([ToolStart(p.state.route)], ToolEnds(p.state.toolResults));
    }
  }

  lemma {:induction false} CitationsAreSilent(sources: seq<Source>)
    ensures TextOf(Citations(sources)) == "" && ToolsEnded(Citations(sources)) == 0
  {
    SingleEvent(Sources(sources));
  }

  lemma {:induction false} EndingIsSilent(raised: bool, done: Event)
    requires done.Done?
    ensures TextOf(Ending(raised, done)) == "" && ToolsEnded(Ending(raised, done)) == 0
  {
    SingleEvent(Error);
    SingleEvent(done);
    TextAppend([Error], [done]);
    assert [Error] + [done] == [Error, done];
  }

  lemma {:induction false} NothingAdded(text: string)
    ensures "" + "" + text + "" == text
  {
  }

  lemma {:induction false} TextOfParts(a: seq<Event>, b: seq<Event>, c: seq<Event>, d: seq<Event>)
    requires TextOf(a) == "" && TextOf(b) == "" && TextOf(d) == ""
    requires ToolsEnded(b) == 0 && ToolsEnded(c) == 0 && ToolsEnded(d) == 0
    ensures TextOf(a + b + c + d) == TextOf(c) && ToolsEnded(a + b + c + d) == ToolsEnded(a)
  {
    TextAppend(a, b);
    TextAppend(a + b, c);
    TextAppend(a + b + c, d);
    NothingAdded(TextOf(c));
  }

  lemma {:induction false} SpokenText(w: World, p: Prepared)
    requires !EndsInTools(p.visited) ==> p.state.toolResults == []
    requires p.stopsAt == GenerateNode && !Raises(w, GenerateNode, p.state)
    ensures TextOf(EventsOf(w, p)) == Text.Join("", w.stream(p.state).pieces)
    ensures ToolsEnded(EventsOf(w, p)) == |p.state.toolResults|
  {
    var reply, done := w.stream(p.state), Done(Report(StreamedState(w, p.state)));
    var tools, citations, tokens := ToolEvents(p), Citations(p.state.sources), Tokens(reply.pieces);
    assert EventsOf(w, p) == tools + citations + tokens + Ending(reply.raised, done);
    ToolEventsAreSilent(p);
    CitationsAreSilent(p.state.sources);
    TokensSpell(reply.pieces);
    EndingIsSilent(reply.raised, done);
    TextOfParts(tools, citations, tokens, Ending(reply.raised, done));
  }

  lemma {:induction false} GuardedText(answer: string, done: Event)
    requires done.Done?
    ensures TextOf([Token(answer), done]) == answer && ToolsEnded([Token(answer), done]) == 0
  {
    SingleEvent(Token(answer));
    SingleEvent(done);
    TextAppend([Token(answer)], [done]);
    assert [Token(answer)] + [done] == [Token(answer), done];
  }

  lemma {:induction false} BrokenText(w: World, p: Prepared)
    requires !EndsInTools(p.visited) ==> p.state.toolResults == []
    requires StreamRaises(w, p)
    ensures TextOf(EventsOf(w, p)) == "" && ToolsEnded(EventsOf(w, p)) == |p.state.toolResults|
  {
    ToolEventsAreSilent(p);
    CitationsAreSilent(p.state.sources);
    TextAppend(ToolEvents(p), Citations(p.state.sources));
  }

  lemma {:induction false} BrokenHasNoDone(w: World, p: Prepared)
    requires StreamRaises(w, p)
    ensures forall e :: e in EventsOf(w, p) ==> !e.Done?
  {
    EventsFollowProtocol(w, p);
    DoneOnceAndLast(EventsOf(w, p));
  }

  /** What the client reads of a turn: its tools and its answer. */
  predicate Spelled(w: World, p: Prepared) {
    var events := EventsOf(w, p);
    ToolsEnded(events) == |p.state.toolResults| &&
    if StreamRaises(w, p) then TextOf(events) == "" && forall e :: e in events ==> !e.Done?
    else
      events != [] && events[|events| - 1].Done? && TextOf(events) == events[|events| - 1].turn.answer &&
      events[|events| - 1].turn.toolResults == p.state.toolResults
  }

  lemma {:induction false} PreparedSpelled(w: World, p: Prepared)
    requires p.stopsAt in {End, GenerateNode, Raised}
    requires !EndsInTools(p.visited) ==> p.state.toolResults == []
    requires p.stopsAt == End ==> p.state.toolResults == []
    ensures Spelled(w, p)
  {
    if StreamRaises(w, p) {
      BrokenText(w, p);
      BrokenHasNoDone(w, p);
    } else if p.stopsAt == End {
      GuardedText(p.state.answer, Done(Report(p.state)));
    } else {
      SpokenText(w, p);
    }
  }

  /** A stream ends one tool for every tool that was executed, whichever way the turn took. Its tokens, put together,
      are the answer its done event reports, also when the generation broke off; a stream that raised has neither. */
  lemma {:induction false} StreamSpellsAnswer(w: World, question: string, messages: seq<string>, locale: string)
    ensures var p := UntilGeneration(w, LoadMemoryNode, InitialState(question, messages, locale));
      Spelled(w, p) && |p.state.toolResults| <= 3
  {
    var start := InitialState(question, messages, locale);
    ToolSafety(w, LoadMemoryNode, start);
    SixWays(w, start);
    PreparedSpelled(w, UntilGeneration(w, LoadMemoryNode, start));
  }

  /** What the streaming entry point reports when it gets to report anything. */
  function Streamed(w: World, p: Prepared): Reported {
    Report(if p.stopsAt == End then p.state else StreamedState(w, p.state))
  }

  lemma {:induction false} OnlyGenerationUses(w: World, node: Node, s: State)
    requires node != GenerateNode
    ensures RunNode(w, node, s).usage == s.usage
  {
  }

  lemma {:induction false} UsageIsSetLast(w: World, node: Node, s: State)
    ensures UntilGeneration(w, node, s).state.usage == s.usage
    decreases VisitsLeft(node, s.iteration)
  {
    if node != GenerateNode && !node.Over() {
      OneVisitLess(w, node, s);
      OnlyGenerationUses(w, node, s);
      UsageIsSetLast(w, Next(w, node, s), RunNode(w, node, s));
    }
  }

  lemma {:induction false} OnlyTheGuardGuards(w: World, node: Node, s: State)
    requires node != GuardNode
    ensures RunNode(w, node, s).guarded == s.guarded
  {
  }

  lemma {:induction false} StaysUnguarded(w: World, node: Node, s: State)
    requires node != LoadMemoryNode && node != GuardNode && node != End
    ensures UntilGeneration(w, node, s).state.guarded == s.guarded
    decreases VisitsLeft(node, s.iteration)
  {
    if node != GenerateNode && node != Raised {
      OneVisitLess(w, node, s);
      OnlyTheGuardGuards(w, node, s);
      StaysPast(w, node, s);
      StaysUnguarded(w, Next(w, node, s), RunNode(w, node, s));
    }
  }

  lemma {:induction false} PastTheGuard(w: World, start: State)
    ensures var p := UntilGeneration(w, LoadMemoryNode, start);
      p.stopsAt == GenerateNode ==> !p.state.guarded
  {
    var m := RunNode(w, LoadMemoryNode, start);
    Unfold(w, LoadMemoryNode, start);
    if !Raises(w, LoadMemoryNode, start) {
      var g := RunNode(w, GuardNode, m);
      Unfold(w, GuardNode, m);
      if !Raises(w, GuardNode, m) && !g.guarded {
        StaysUnguarded(w, ClassifyNode, g);
      }
    }
  }

  /** Both entry points raise on the same turns. When they do not, both generate from the same state, hence from the
      same prompt: the route, the tools, the citations and a guarded reply are reported alike, and the answer is the
      same whenever the model says the same both ways. What the generation adds to `degraded` and `usage` is reported
      by the buffered one alone: the stream reports what retrieval left, and the usage the turn began with. */
  lemma {:induction false} EntryPointsAgree(w: World, start: State)
    ensures var p, r := UntilGeneration(w, LoadMemoryNode, start), GraphRun(w, LoadMemoryNode, start);
      (StreamRaises(w, p) <==> r.end == Raised) &&
      (p.stopsAt == End ==> Streamed(w, p) == Report(r.state)) &&
      (p.stopsAt == GenerateNode && !StreamRaises(w, p) ==>
        var streamed, buffered, reply := Streamed(w, p), Report(r.state), w.generate(p.state);
        streamed.route == buffered.route && streamed.sources == buffered.sources &&
        streamed.toolResults == buffered.toolResults && streamed.usage == start.usage &&
        (reply.GenerationFailed? ==> streamed.degraded == buffered.degraded && streamed.usage == buffered.usage) &&
        (reply.Generated? ==>
          (streamed.answer == buffered.answer <==> Text.Join("", w.stream(p.state).pieces) == reply.text) &&
          (streamed.degraded == buffered.degraded <==> streamed.degraded || !reply.degraded) &&
          buffered.usage == reply.usage))
  {
    GenerationComesLast(w, LoadMemoryNode, start);
    UsageIsSetLast(w, LoadMemoryNode, start);
    PastTheGuard(w, start);
  }
}
