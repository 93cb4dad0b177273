/** Which tools a chat turn may run, and how the calls of one turn are chosen. */
module ToolPlanning {
  import opened Outcomes
  import opened Selections

  const ROUTE_VALUES: set<string> := {"smalltalk", "listing_search", "knowledge", "web", "handoff"}

  /** The menu of a route; None for a route nobody has heard of. */
  function RouteTools(route: string): Option<seq<string>> {
    if route == "smalltalk" then Some([])
    else if route == "knowledge" then Some(["search_listings", "get_property_details", "calculate_mortgage"])
    else if route == "listing_search" then
      Some(["search_listings", "get_property_details", "calculate_mortgage", "create_lead"])
    else if route == "web" then Some(["web_search"])
    else if route == "handoff" then Some(["escalate_to_human", "create_lead"])
    else None
  }

  /** May a turn on this route run a tool of this name? */
  predicate OnMenu(name: string, route: string) {
    RouteTools(route).Some? && name in RouteTools(route).value
  }

  function Registered(names: seq<string>, registry: set<string>): (r: seq<string>)
    ensures forall n :: n in r <==> n in names && n in registry
  {
    if names == [] then []
    else (if names[0] in registry then [names[0]] else []) + Registered(names[1..], registry)
  }

  /** The names whose schemas the planner is shown: the whole registry when the route is unknown. */
  function Offered(route: string, registry: set<string>): set<string> {
    match RouteTools(route)
    case Some(names) => (set n | n in Registered(names, registry))
    case None => registry
  }

  // ---------------------------------------------------------------- planning

  type Arguments = nat

  datatype Call = Call(name: string, arguments: Arguments)

  /** An entry of the list a model replied with: an object whose name can be looked up, one whose name cannot (a list
      or an object is no member a set can be asked for), or anything else, which is ignored. */
  datatype Entry = Junk | Asked(call: Call) | UnhashableName

  /** What the model put under "calls". Lists, objects and strings are walked through; a number or null is not. */
  datatype Calls = NotIterable | Entries(entries: seq<Entry>)

  datatype PlannerReply = Unavailable | Failed | Replied(calls: Calls)

  /** The reply is parsed inside the guarded section and walked through outside of it: on these, walking raises. */
  predicate Malformed(reply: PlannerReply) {
    reply.Replied? && (reply.calls.NotIterable? || UnhashableName in reply.calls.entries)
  }

  function Allowed(entries: seq<Entry>, offered: set<string>): (calls: seq<Call>)
    ensures forall c :: c in calls <==> Asked(c) in entries && c.name in offered
  {
    if entries == [] then []
    else
      (if entries[0].Asked? && entries[0].call.name in offered then [entries[0].call] else []) +
      Allowed(entries[1..], offered)
  }

  /** What the deterministic fallback needs to know about the turn. */
  datatype Turn = Turn(listing: Arguments, mortgage: Option<Arguments>, search: Arguments, escalation: Arguments)

  function DefaultToolCalls(route: string, turn: Turn): seq<Call> {
    if route == "listing_search" then [Call("search_listings", turn.listing)]
    else if route == "knowledge" then
      if turn.mortgage.Some? then [Call("calculate_mortgage", turn.mortgage.value)] else []
    else if route == "web" then [Call("web_search", turn.search)]
    else if route == "handoff" then [Call("escalate_to_human", turn.escalation)]
    else []
  }

  /** The planned calls; None when planning raises. */
  function PlanToolCalls(route: string, registry: set<string>, reply: PlannerReply, turn: Turn): Option<seq<Call>> {
    if Malformed(reply) then None
    else if !reply.Replied? then Some(DefaultToolCalls(route, turn))
    else
      var allowed := Allowed(reply.calls.entries, Offered(route, registry));
      var planned := if |allowed| > 3 then allowed[..3] else allowed;
      Some(if planned != [] then planned else DefaultToolCalls(route, turn))
  }

  /** The calls of one turn: none when the route has no registered tool, whatever the model would have replied. */
  function ToolCalls(route: string, registry: set<string>, reply: PlannerReply, turn: Turn): (calls: Option<seq<Call>>)
    ensures calls.None? <==> Offered(route, registry) != {} && Malformed(reply)
  {
    if Offered(route, registry) == {} then Some([]) else PlanToolCalls(route, registry, reply, turn)
  }

  lemma {:induction false} PlannedOnMenu(route: string, registry: set<string>, entries: seq<Entry>, c: Call)
    requires route in ROUTE_VALUES
    ensures c in Allowed(entries, Offered(route, registry)) ==> OnMenu(c.name, route)
  {
    if c in Allowed(entries, Offered(route, registry)) {
      assert c.name in Registered(RouteTools(route).value, registry);
    }
  }

  /** On a known route at most three calls are made and every one is on the menu of the route, whatever the model asked
      for and however the planning failed. There are no calls at all exactly when the planning raises: a route with a
      registered tool, and a malformed reply. */
  lemma {:induction false} CallsStayOnMenu(route: string, registry: set<string>, reply: PlannerReply, turn: Turn)
    requires route in ROUTE_VALUES
    ensures var calls := ToolCalls(route, registry, reply, turn);
      if Offered(route, registry) != {} && Malformed(reply) then calls == None
      else calls.Some? && |calls.value| <= 3 && forall c :: c in calls.value ==> OnMenu(c.name, route)
  {
    var calls := ToolCalls(route, registry, reply, turn);
    if calls.Some? {
      forall c | c in calls.value ensures OnMenu(c.name, route) {
        if reply.Replied? && !Malformed(reply) {
          PlannedOnMenu(route, registry, reply.calls.entries, c);
        }
      }
    }
  }

  // ---------------------------------------------------------------- exactly which calls

  /** Who may do what: looking things up and calculating where listings and knowledge are asked for, the web on its own
      route, and leaving the conversation or one's details only where a person is wanted. */
  lemma {:induction false} Menus(name: string, route: string)
    ensures OnMenu(name, route) <==>
      (name in {"search_listings", "get_property_details", "calculate_mortgage"} &&
        route in {"knowledge", "listing_search"}) ||
      (name == "create_lead" && route in {"listing_search", "handoff"}) ||
      (name == "web_search" && route == "web") || (name == "escalate_to_human" && route == "handoff")
  {
  }

  /** The planner is shown what is on the menu and registered. */
  lemma {:induction false} OfferedExactly(name: string, route: string, registry: set<string>)
    ensures name in Offered(route, registry) <==> name in registry && (OnMenu(name, route) || route !in ROUTE_VALUES)
  {
    if RouteTools(route).Some? {
      assert name in Registered(RouteTools(route).value, registry) <==>
        name in RouteTools(route).value && name in registry;
    }
  }

  /** Does an entry ask for a tool that was offered? */
  ghost function AsksFor(offered: set<string>): Entry -> bool {
    (e: Entry) => e.Asked? && e.call.name in offered
  }

  ghost function CallIn(): Entry -> Call {
    (e: Entry) => if e.Asked? then e.call else Call("", 0)
  }

  lemma {:induction false} AllowedSelects(entries: seq<Entry>, offered: set<string>)
    ensures Selects(AsksFor(offered), CallIn(), entries, Allowed(entries, offered))
  {
    if entries == [] {
      NothingSelected(AsksFor(offered), CallIn());
    } else {
      AllowedSelects(entries[1..], offered);
      SelectsFirst(AsksFor(offered), CallIn(), entries[0], entries[1..], Allowed(entries[1..], offered));
      assert [entries[0]] + entries[1..] == entries;
      assert [] + Allowed(entries[1..], offered) == Allowed(entries[1..], offered);
    }
  }

  /** The call a route stands for, when there is no usable plan. */
  ghost predicate IsDefault(route: string, turn: Turn, calls: seq<Call>) {
    |calls| <= 1 &&
    (calls == [] <==>
      route !in {"listing_search", "web", "handoff"} && !(route == "knowledge" && turn.mortgage.Some?)) &&
    (route == "listing_search" ==> calls == [Call("search_listings", turn.listing)]) &&
    (route == "web" ==> calls == [Call("web_search", turn.search)]) &&
    (route == "handoff" ==> calls == [Call("escalate_to_human", turn.escalation)]) &&
    (route == "knowledge" && turn.mortgage.Some? ==> calls == [Call("calculate_mortgage", turn.mortgage.value)])
  }

  /** The first three of these calls, or all of them. */
  ghost predicate FirstThree(asked: seq<Call>, calls: seq<Call>) {
    calls <= asked && |calls| == if |asked| < 3 then |asked| else 3
  }

  lemma {:induction false} PlannedFromReply(route: string, registry: set<string>, entries: seq<Entry>, turn: Turn,
                                            asked: seq<Call>)
    requires UnhashableName !in entries && Selects(AsksFor(Offered(route, registry)), CallIn(), entries, asked)
    ensures var calls := PlanToolCalls(route, registry, Replied(Entries(entries)), turn);
      calls.Some? && if asked == [] then IsDefault(route, turn, calls.value) else FirstThree(asked, calls.value)
  {
    var offered := Offered(route, registry);
    AllowedSelects(entries, offered);
    SelectionIsUnique(AsksFor(offered), CallIn(), entries, asked, Allowed(entries, offered));
  }

  /** Whichever calls the model asks for among those offered, the first three are made, in its order; where it asks for
      none, or there is no plan, the call its route stands for. */
  lemma {:induction false} PlansExactly(route: string, registry: set<string>, reply: PlannerReply, turn: Turn,
                                        asked: seq<Call>)
    requires Offered(route, registry) != {} && !Malformed(reply)
    requires reply.Replied? ==> Selects(AsksFor(Offered(route, registry)), CallIn(), reply.calls.entries, asked)
    ensures var calls := ToolCalls(route, registry, reply, turn);
      calls.Some? &&
      if reply.Replied? && asked != [] then FirstThree(asked, calls.value) else IsDefault(route, turn, calls.value)
  {
    if reply.Replied? {
      PlannedFromReply(route, registry, reply.calls.entries, turn, asked);
    }
  }

  /** Why the route has to be a known one: on any other, a registered tool can be run that no menu holds. */
  lemma {:induction false} UnknownRouteEscapes(route: string, tool: string, args: Arguments, turn: Turn)
    requires route !in ROUTE_VALUES
    ensures ToolCalls(route, {tool}, Replied(Entries([Asked(Call(tool, args))])), turn) == Some([Call(tool, args)])
    ensures !OnMenu(tool, route)
  {
    var entries := [Asked(Call(tool, args))];
    assert tool in Offered(route, {tool});
    assert Allowed(entries[1..], {tool}) == [];
    assert Allowed(entries, {tool}) == [Call(tool, args)];
  }
}
