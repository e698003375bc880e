/** The agent graph (react_agent_system_langgraph.py, `create_agent_graph`
    and `route_decision`): nine nodes, a fixed intent-to-agent table with a
    confidence floor, and straight edges from every agent to validation. */
module Routing {
  import opened Wrappers

  datatype Node =
    | AnalyzeRequest
    | RouteDecision
    | GeneralAgent
    | CapabilitiesAgent
    | TutorialAgent
    | ClarificationAgent
    | HistorySummaryAgent
    | FallbackAgent
    | ValidateResponse
    | End

  /** The node's name in the graph and in `processing_path`. */
  function Name(n: Node): string {
    match n
    case AnalyzeRequest => "analyze_request"
    case RouteDecision => "route_decision"
    case GeneralAgent => "general_agent"
    case CapabilitiesAgent => "capabilities_agent"
    case TutorialAgent => "tutorial_agent"
    case ClarificationAgent => "clarification_agent"
    case HistorySummaryAgent => "history_summary_agent"
    case FallbackAgent => "fallback_agent"
    case ValidateResponse => "validate_response"
    case End => "__end__"
  }

  /** The six nodes `route_decision` can hand over to. */
  predicate IsAgent(n: Node) {
    n.GeneralAgent? || n.CapabilitiesAgent? || n.TutorialAgent? || n.ClarificationAgent?
    || n.HistorySummaryAgent? || n.FallbackAgent?
  }

  /** Below this confidence every request goes to the fallback agent. */
  const ConfidenceFloor: real := 0.4

  /** `route_map`. */
  function RouteMap(intent: string): Option<string> {
    if intent == "general" then Some("general_agent")
    else if intent == "tutorial" then Some("tutorial_agent")
    else if intent == "capabilities" then Some("capabilities_agent")
    else if intent == "clarify" then Some("clarification_agent")
    else if intent == "history_recall" then Some("history_summary_agent")
    else if intent == "summarization" then Some("history_summary_agent")
    else if intent == "fallback" then Some("fallback_agent")
    else None
  }

  /** The `next_node` `route_decision` records. */
  function RouteFor(intent: string, confidence: real): (next: string)
    ensures confidence < ConfidenceFloor ==> next == "fallback_agent"
    ensures confidence >= ConfidenceFloor && RouteMap(intent).Some? ==> next == RouteMap(intent).value
    ensures confidence >= ConfidenceFloor && RouteMap(intent).None? ==> next == "fallback_agent"
  {
    if confidence < ConfidenceFloor then "fallback_agent"
    else match RouteMap(intent)
      case Some(name) => name
      case None => "fallback_agent"
  }

  /** The conditional edge map out of `route_decision`; an unlisted name has no edge. */
  function AgentNamed(name: string): (r: Option<Node>)
    ensures r.Some? ==> IsAgent(r.value) && Name(r.value) == name
    ensures forall n :: IsAgent(n) && Name(n) == name ==> r == Some(n)
  {
    if name == "general_agent" then Some(GeneralAgent)
    else if name == "capabilities_agent" then Some(CapabilitiesAgent)
    else if name == "tutorial_agent" then Some(TutorialAgent)
    else if name == "clarification_agent" then Some(ClarificationAgent)
    else if name == "history_summary_agent" then Some(HistorySummaryAgent)
    else if name == "fallback_agent" then Some(FallbackAgent)
    else None
  }

  /** The graph's edges; `nextNode` decides the one out of `route_decision`.
      `None` is a name the edge map lacks, on which the graph run fails. */
  function Successor(n: Node, nextNode: string): (r: Option<Node>)
    requires n != End
    ensures r.Some? ==> Rank(r.value) < Rank(n)
    ensures IsAgent(n) ==> r == Some(ValidateResponse)
  {
    match n
    case AnalyzeRequest => Some(RouteDecision)
    case RouteDecision => AgentNamed(nextNode)
    case ValidateResponse => Some(End)
    case _ => Some(ValidateResponse)
  }

  /** Distance to the end of the graph. */
  function Rank(n: Node): nat {
    match n
    case AnalyzeRequest => 4
    case RouteDecision => 3
    case ValidateResponse => 1
    case End => 0
    case _ => 2
  }

  /** The nodes a run visits, in order, until the end or a missing edge. */
  function PathFrom(n: Node, nextNode: string): seq<Node>
    decreases Rank(n)
  {
    if n == End then []
    else match Successor(n, nextNode)
      case None => [n]
      case Some(m) => [n] + PathFrom(m, nextNode)
  }

  // ---------------------------------------------------------------------

  /** Whatever the analysis, the recorded name has an edge to one of the six agents. */
  lemma RouteAlwaysMapped(intent: string, confidence: real)
    ensures AgentNamed(RouteFor(intent, confidence)).Some?
  {
  }

  /** Every run whose recorded name has an edge (by RouteAlwaysMapped, every
      run) is analyze, route, exactly that agent, validate. */
  lemma EveryRunPath(nextNode: string)
    requires AgentNamed(nextNode).Some?
    ensures PathFrom(AnalyzeRequest, nextNode) ==
      [AnalyzeRequest, RouteDecision, AgentNamed(nextNode).value, ValidateResponse]
  {
    var agent := AgentNamed(nextNode).value;
    assert PathFrom(agent, nextNode) == [agent, ValidateResponse];
  }

  /** The table at or above the floor, for the four single-agent intents. */
  lemma RouteTable(confidence: real)
    requires confidence >= ConfidenceFloor
    ensures AgentNamed(RouteFor("general", confidence)) == Some(GeneralAgent)
    ensures AgentNamed(RouteFor("tutorial", confidence)) == Some(TutorialAgent)
    ensures AgentNamed(RouteFor("capabilities", confidence)) == Some(CapabilitiesAgent)
    ensures AgentNamed(RouteFor("clarify", confidence)) == Some(ClarificationAgent)
  {
  }

  /** The rest of the table: both history intents share one agent, and
      "fallback" goes to the fallback agent. */
  lemma RouteTableHistory(confidence: real)
    requires confidence >= ConfidenceFloor
    ensures AgentNamed(RouteFor("history_recall", confidence)) == Some(HistorySummaryAgent)
    ensures AgentNamed(RouteFor("summarization", confidence)) == Some(HistorySummaryAgent)
    ensures AgentNamed(RouteFor("fallback", confidence)) == Some(FallbackAgent)
  {
  }

  /** An intent outside the table falls back, whatever the confidence. */
  lemma UnknownIntentFallsBack(intent: string, confidence: real)
    requires RouteMap(intent).None?
    ensures AgentNamed(RouteFor(intent, confidence)) == Some(FallbackAgent)
  {
  }

  /** Below the floor the intent is ignored. */
  lemma LowConfidenceFallsBack(i1: string, i2: string, confidence: real)
    requires confidence < ConfidenceFloor
    ensures RouteFor(i1, confidence) == RouteFor(i2, confidence) == "fallback_agent"
  {
  }
}
