/** The agent graph as the program runs it (react_agent_system_langgraph.py):
    an `AgentState` object that every node updates in place, the nodes of
    `AgentNodes` as methods on it, and `process_user_query`, which runs
    analyze, route, one agent and validate in turn. Each node is proved to
    leave the state exactly as the matching function of module Agent says. */
module AgentRuntime {
  import opened Wrappers
  import opened Text
  import opened Json
  import opened Responses
  import opened Agent
  import Analyzer
  import Knowledge
  import Generators
  import Routing
  import Retrieval

  /** `AgentState`, the dictionary the graph threads through its nodes and
      updates in place; `values` holds what its keys map to. */
  class AgentState {
    var values: StateView

    /** `initial_state` of `process_user_query`. */
    constructor (query: string, history: seq<string>, tutorial: seq<Fields>)
      ensures values == InitialView(query, history, tutorial)
    {
      values := StateView(query, "", 0.0, "english", false, false, None, [], history, tutorial, [], "", [], None, None);
    }
  }

  /** The loop of `tutorial_agent` that renumbers the retrieved steps from 1. */
  method FormatSteps(steps: seq<Retrieval.Step>) returns (entries: seq<Json>)
    ensures entries == StepEntries(steps)
  {
    entries := [];
    var i := 0;
    while i < |steps|
      invariant 0 <= i <= |steps|
      invariant entries == StepEntries(steps[..i])
    {
      assert StepEntries(steps[..i + 1]) == StepEntries(steps[..i]) + [StepEntry(i + 1, steps[i])];
      entries := entries + [StepEntry(i + 1, steps[i])];
      i := i + 1;
    }
    assert steps[..i] == steps;
  }

  /** `AgentNodes`: the services the nodes call and the knowledge base the
      suggestion generator reads. */
  class AgentNodes {
    const services: Services
    var knowledge: Knowledge.KnowledgeBase

    /** `AgentNodes()`, which runs `refresh` once. */
    constructor (s: Services, store: Option<seq<Knowledge.MetaEntry>>)
      ensures services == s && fresh(knowledge)
      ensures knowledge.Lists() ==
        Knowledge.TopicLists(Knowledge.Topics(store, Knowledge.EnglishTopics),
                             Knowledge.Topics(store, Knowledge.RomanUrduTopics))
    {
      services := s;
      knowledge := new Knowledge.KnowledgeBase(store);
    }

    /** `refresh`: a knowledge base rebuilt from the store. */
    method Refresh(store: Option<seq<Knowledge.MetaEntry>>)
      modifies this
      ensures fresh(knowledge)
      ensures knowledge.Lists() ==
        Knowledge.TopicLists(Knowledge.Topics(store, Knowledge.EnglishTopics),
                             Knowledge.Topics(store, Knowledge.RomanUrduTopics))
    {
      knowledge := new Knowledge.KnowledgeBase(store);
    }

    method AnalyzeRequest(state: AgentState)
      modifies state
      ensures state.values == AnalyzeStep(services, old(state.values))
    {
      var a := AnalysisOf(services, state.values);
      state.values := state.values.(llmIntent := a.intent,
                                    confidence := a.confidence,
                                    detectedLanguage := a.language,
                                    isConfused := a.isConfused,
                                    stepToClarify := a.stepNumber,
                                    requiresClarification := a.intent == "clarify" && !StepTruthy(a.stepNumber),
                                    languageAnalysis := Some(a.language),
                                    processingPath := state.values.processingPath + ["analyze_request"]);
    }

    method RouteDecision(state: AgentState)
      modifies state
      ensures state.values == RouteStep(old(state.values))
    {
      var intent := state.values.llmIntent;
      if state.values.confidence < Routing.ConfidenceFloor {
        state.values := state.values.(nextNode := "fallback_agent");
      } else {
        match Routing.RouteMap(intent)
        case Some(name) => state.values := state.values.(nextNode := name);
        case None => state.values := state.values.(nextNode := "fallback_agent");
      }
      state.values := state.values.(processingPath := state.values.processingPath + ["route_decision"]);
    }

    method GeneralAgent(state: AgentState)
      modifies state
      ensures state.values == GeneralStep(services, knowledge.Lists(), old(state.values))
    {
      var v := state.values;
      var urdu := AnalysedAsUrdu(v.languageAnalysis);
      var suggestions := SuggestFor(services, knowledge.Lists(), v, "general");
      var content := GeneralContent(services, urdu, v);
      state.values := state.values.(response := GeneralResponse(content, suggestions, urdu),
                                    suggestions := suggestions,
                                    processingPath := state.values.processingPath + ["general_agent"]);
    }

    method CapabilitiesAgent(state: AgentState)
      modifies state
      ensures state.values == CapabilitiesStep(services, knowledge.Lists(), old(state.values))
    {
      var v := state.values;
      var urdu := AnalysedAsUrdu(v.languageAnalysis);
      var suggestions := SuggestFor(services, knowledge.Lists(), v, "capabilities");
      state.values := v.(response := CapabilitiesResponse(suggestions, urdu),
                                    suggestions := suggestions,
                                    processingPath := state.values.processingPath + ["capabilities_agent"]);
    }

    /** `_handle_step_clarification`. */
    method HandleStepClarification(state: AgentState)
      requires StepTruthy(state.values.stepToClarify)
      modifies state
      ensures state.values == StepClarificationStep(services, knowledge.Lists(), old(state.values))
    {
      var v := state.values;
      var suggestions := SuggestFor(services, knowledge.Lists(), v, "clarify");
      var n := v.stepToClarify.value;
      var response;
      if v.lastTutorial != [] && 1 <= n <= |v.lastTutorial| {
        var step := v.lastTutorial[n - 1];
        var urdu := DetectedAsUrdu(v.detectedLanguage);
        var original := OriginalText(step);
        var clarified := Clarified(services, urdu, n, original);
        response := ClarifyResponse(n, original, clarified, StepImage(step), suggestions, urdu);
      } else {
        response := ClarifyErrorResponse(suggestions);
      }
      state.values := v.(response := response, suggestions := suggestions);
    }

    /** `tutorial_agent`: the cache is asked only when no step is to be clarified. */
    method TutorialAgent(state: AgentState, cache: Retrieval.ResponseCache)
      requires cache.Valid()
      modifies state, cache
      ensures cache.Valid()
      ensures state.values == TutorialStep(services, knowledge.Lists(), old(state.values),
                                           Answer(services, old(cache.entries), old(state.values.userQuery)))
      ensures cache.entries == if StepTruthy(old(state.values.stepToClarify)) then old(cache.entries)
                               else CacheAfter(services, old(cache.entries), old(state.values.userQuery))
    {
      if StepTruthy(state.values.stepToClarify) {
        HandleStepClarification(state);
      } else {
        var answer, _, _ := cache.GetBotResponse(state.values.userQuery, services.search, services.select);
        PresentAnswer(state, answer);
      }
    }

    /** The rest of `tutorial_agent` once `get_bot_response` has answered. */
    method PresentAnswer(state: AgentState, answer: Retrieval.BotResponse)
      modifies state
      ensures state.values == RetrievalStep(services, knowledge.Lists(), old(state.values), answer)
    {
      var v := state.values;
      var kb := knowledge.Lists();
      var urdu := AnalysedAsUrdu(v.languageAnalysis);
      var response, suggestions;
      if answer.Tutorial? && answer.steps != [] {
        var entries := FormatSteps(answer.steps);
        var intro := Generators.Greeting(services.greet, v.userQuery, answer.sectionTitle, Generators.LanguageTag(urdu));
        suggestions := SuggestFor(services, kb, v, "tutorial");
        response := TutorialResponse(intro, entries, urdu, suggestions);
      } else if answer.NoRelevantContent? {
        suggestions := SuggestFor(services, kb, v, "fallback");
        response := NoRelevantResponse(v.userQuery, suggestions);
      } else {
        suggestions := SuggestFor(services, kb, v, "tutorial");
        response := TutorialFallbackResponse(v.userQuery, suggestions);
      }
      state.values := v.(response := response, suggestions := suggestions,
                         processingPath := v.processingPath + ["tutorial_agent"]);
    }

    /** `clarification_agent`. */
    method ClarificationAgent(state: AgentState, cache: Retrieval.ResponseCache)
      requires cache.Valid()
      modifies state, cache
      ensures cache.Valid()
      ensures state.values == ClarificationStep(services, knowledge.Lists(), old(state.values),
                                                Answer(services, old(cache.entries), old(state.values.userQuery)))
      ensures cache.entries == if ConsultsCache(Routing.ClarificationAgent, old(state.values)) then
                                 CacheAfter(services, old(cache.entries), old(state.values.userQuery))
                               else old(cache.entries)
    {
      var v := state.values;
      if v.requiresClarification {
        var suggestions := SuggestFor(services, knowledge.Lists(), v, "clarify");
        state.values := v.(response := ClarifyQuestionResponse(suggestions), suggestions := suggestions,
                           processingPath := v.processingPath + ["clarification_agent"]);
      } else {
        TutorialAgent(state, cache);
      }
    }

    /** `history_summary_agent`. */
    method HistorySummaryAgent(state: AgentState)
      modifies state
      ensures state.values == HistoryStep(services, old(state.values))
    {
      var v := state.values;
      var urdu := DetectedAsUrdu(v.detectedLanguage);
      var history := v.conversationHistory;
      if history == [] {
        state.values := v.(response := NoHistoryResponse(urdu));
        return;
      }
      var response := v.response;
      if v.llmIntent == "summarization" {
        var text := match services.llm(SummaryPrompt(urdu, history))
                    case Reply(t) => t
                    case Failed(_) => SummaryFailed;
        response := HistoryResponse(text, urdu);
      } else if v.llmIntent == "history_recall" {
        var text := match services.llm(RecallPrompt(urdu, LastN(history, 10), v.userQuery))
                    case Reply(t) => t
                    case Failed(_) => RecallFailed;
        response := HistoryResponse(text, urdu);
      }
      state.values := v.(response := response, processingPath := v.processingPath + ["history_summary_agent"]);
    }

    method FallbackAgent(state: AgentState)
      modifies state
      ensures state.values == FallbackStep(services, knowledge.Lists(), old(state.values))
    {
      var suggestions := SuggestFor(services, knowledge.Lists(), state.values, "fallback");
      state.values := state.values.(response := FallbackResponse(suggestions),
                                    suggestions := suggestions,
                                    processingPath := state.values.processingPath + ["fallback_agent"]);
    }

    /** `validate_response`. */
    method ValidateResponse(state: AgentState)
      modifies state
      ensures state.values == ValidateStep(old(state.values))
    {
      if state.values.response == [] {
        state.values := state.values.(responseValid := Some(false));
        return;
      }
      state.values := state.values.(responseValid := Some(ResponseValid(state.values.response)),
                                    processingPath := state.values.processingPath + ["validate_response"]);
    }

    /** The node the conditional edge out of `route_decision` leads to. */
    method RunAgent(agent: Routing.Node, state: AgentState, cache: Retrieval.ResponseCache)
      requires Routing.IsAgent(agent) && cache.Valid()
      modifies state, cache
      ensures cache.Valid()
      ensures state.values == AgentStep(agent, services, knowledge.Lists(), old(state.values),
                                        Answer(services, old(cache.entries), old(state.values.userQuery)))
      ensures cache.entries == if ConsultsCache(agent, old(state.values)) then
                                 CacheAfter(services, old(cache.entries), old(state.values.userQuery))
                               else old(cache.entries)
    {
      if agent == Routing.TutorialAgent {
        TutorialAgent(state, cache);
      } else if agent == Routing.ClarificationAgent {
        ClarificationAgent(state, cache);
      } else {
        RunPlainAgent(agent, state);
      }
    }

    /** The four agents that never consult the retrieval cache. */
    method RunPlainAgent(agent: Routing.Node, state: AgentState)
      requires Routing.IsAgent(agent) && !agent.TutorialAgent? && !agent.ClarificationAgent?
      modifies state
      ensures forall answer :: state.values == AgentStep(agent, services, knowledge.Lists(), old(state.values), answer)
    {
      match agent
      case GeneralAgent => GeneralAgent(state);
      case CapabilitiesAgent => CapabilitiesAgent(state);
      case HistorySummaryAgent => HistorySummaryAgent(state);
      case FallbackAgent => FallbackAgent(state);
    }

    /** `analyze_request` then `route_decision`. */
    method AnalyzeAndRoute(state: AgentState) returns (agent: Routing.Node)
      modifies state
      ensures state.values == RouteStep(AnalyzeStep(services, old(state.values)))
      ensures agent == ChosenAgent(AnalyzeStep(services, old(state.values)))
    {
      AnalyzeRequest(state);
      RouteDecision(state);
      Routing.RouteAlwaysMapped(state.values.llmIntent, state.values.confidence);
      agent := Routing.AgentNamed(state.values.nextNode).value;
    }

    /** `graph.invoke(initial_state)`: the run and the cache after it. */
    method Invoke(state: AgentState, cache: Retrieval.ResponseCache)
      requires cache.Valid()
      modifies state, cache
      ensures cache.Valid()
      ensures (state.values, cache.entries) == Run(services, knowledge.Lists(), old(cache.entries), old(state.values))
    {
      var agent := AnalyzeAndRoute(state);
      RunAgentAndValidate(agent, AnalyzeStep(services, old(state.values)), state, cache);
    }

    /** The agent chosen for `analysed`, then `validate_response`: the part of
        the run after the two routing nodes. */
    method RunAgentAndValidate(agent: Routing.Node, ghost analysed: StateView, state: AgentState, cache: Retrieval.ResponseCache)
      requires agent == ChosenAgent(analysed) && state.values == RouteStep(analysed) && cache.Valid()
      modifies state, cache
      ensures cache.Valid()
      ensures (state.values, cache.entries) == Dispatch(services, knowledge.Lists(), old(cache.entries), analysed)
    {
      RunAgent(agent, state, cache);
      ValidateResponse(state);
    }
  }

  /** `LangGraphAgentSystem.process_user_query`: run the graph, append the
      turn to the history, and return the formatted response with the
      history and the detected intent added. */
  method ProcessUserQuery(nodes: AgentNodes, cache: Retrieval.ResponseCache,
                          query: string, history: seq<string>, tutorial: seq<Fields>)
    returns (output: Json, newHistory: seq<string>)
    requires cache.Valid()
    modifies cache
    ensures cache.Valid()
    ensures var (final, after) := Run(nodes.services, nodes.knowledge.Lists(), old(cache.entries),
                                      InitialView(query, history, tutorial));
      && cache.entries == after
      && newHistory == history + TurnEntries(query, final.response)
      && output == Output(final, newHistory)
  {
    var state := new AgentState(query, history, tutorial);
    nodes.Invoke(state, cache);
    newHistory := history + ["User: " + query, "Assistant: " + ContentText(state.values.response)];
    output := FormatValue(JObject(Put(Put(state.values.response, "conversation_history", Strs(newHistory)),
                                      "detected_intent", JStr(state.values.llmIntent))));
  }

  /** `refresh_knowledge_base`: the retrieval cache is dropped and the nodes
      are rebuilt over the current store. */
  method RefreshKnowledgeBase(s: Services, store: Option<seq<Knowledge.MetaEntry>>, cache: Retrieval.ResponseCache)
    returns (nodes: AgentNodes)
    modifies cache
    ensures cache.Valid() && cache.entries == map[]
    ensures fresh(nodes) && nodes.services == s
    ensures nodes.knowledge.Lists() ==
      Knowledge.TopicLists(Knowledge.Topics(store, Knowledge.EnglishTopics),
                           Knowledge.Topics(store, Knowledge.RomanUrduTopics))
  {
    cache.RefreshComponents();
    nodes := new AgentNodes(s, store);
  }
}
