/** The nodes of the agent graph (react_agent_system_langgraph.py,
    `AgentNodes`) as functions from the agent state before a node to the state
    after it, and the whole graph run. The `AgentState` class in
    agent_runtime.dfy updates its fields exactly as these functions say. */
module Agent {
  import opened Wrappers
  import opened Text
  import opened Json
  import opened Responses
  import Analyzer
  import Knowledge
  import Generators
  import Routing
  import Retrieval

  /** The free-text language-model calls the nodes make. `urdu` is the flag
      that picks the Roman-Urdu or the English system prompt. */
  datatype Prompt =
    | GeneralPrompt(urdu: bool, recentHistory: seq<string>, query: string)
    | ClarifyPrompt(urdu: bool, stepNumber: int, stepText: Json)
    | SummaryPrompt(urdu: bool, history: seq<string>)
    | RecallPrompt(urdu: bool, recentHistory: seq<string>, query: string)

  /** Every external service the graph consults. */
  datatype Services = Services(
    classify: (string, seq<string>) -> Analyzer.RawAnalysis,
    suggest: Generators.SuggestionPrompt -> Generators.SuggestionOutcome,
    greet: Generators.GreetingPrompt -> Reply,
    llm: Prompt -> Reply,
    search: string -> Retrieval.SearchOutcome,
    select: (string, seq<string>) -> Reply)

  /** The fields of `AgentState`. `validation_results` is split into its two
      entries: the analysed language and the `response_valid` flag. */
  datatype StateView = StateView(
    userQuery: string,
    llmIntent: string,
    confidence: real,
    detectedLanguage: string,
    isConfused: bool,
    requiresClarification: bool,
    stepToClarify: Option<int>,
    response: Fields,
    conversationHistory: seq<string>,
    lastTutorial: seq<Fields>,
    suggestions: seq<string>,
    nextNode: string,
    processingPath: seq<string>,
    languageAnalysis: Option<string>,
    responseValid: Option<bool>)

  /** The state `process_user_query` starts the graph with. */
  function InitialView(query: string, history: seq<string>, lastTutorial: seq<Fields>): StateView {
    StateView(query, "", 0.0, "english", false, false, None, [], history, lastTutorial, [], "", [], None, None)
  }

  /** Python truthiness of `step_to_clarify`: set and not 0. */
  predicate StepTruthy(step: Option<int>) {
    step.Some? && step.value != 0
  }

  /** `validation_results["language_analysis"]["language"].lower() in ["urdu", "roman-urdu"]`. */
  predicate AnalysedAsUrdu(languageAnalysis: Option<string>) {
    var l := Lower(if languageAnalysis.Some? then languageAnalysis.value else "");
    l == "urdu" || l == "roman-urdu"
  }

  /** `detected_language in ["urdu", "roman-urdu"]`: case-sensitive. */
  predicate DetectedAsUrdu(detectedLanguage: string) {
    detectedLanguage == "urdu" || detectedLanguage == "roman-urdu"
  }

  function SuggestFor(s: Services, kb: Knowledge.TopicLists, v: StateView, intent: string): (r: seq<string>)
    ensures r != []
  {
    Generators.Suggestions(kb, s.suggest, v.userQuery, intent, v.conversationHistory,
                           Generators.LanguageTag(AnalysedAsUrdu(v.languageAnalysis)))
  }

  /** An agent node changes only the response, the suggestions and the path. */
  predicate AgentFrame(v: StateView, w: StateView) {
    w == v.(response := w.response, suggestions := w.suggestions, processingPath := w.processingPath)
  }

  // ---------------------------------------------------------------------
  // analyze_request and route_decision.

  /** What `analyze_request` guarantees about the fields it sets. */
  predicate Analysed(a: StateView) {
    && a.llmIntent in Analyzer.ValidIntents
    && 0.0 <= a.confidence <= 1.0
    && (a.detectedLanguage == Analyzer.RomanUrdu || a.detectedLanguage == Analyzer.English)
    && a.languageAnalysis == Some(a.detectedLanguage)
    && (a.requiresClarification <==> a.llmIntent == "clarify" && !StepTruthy(a.stepToClarify))
  }

  /** `request_analyzer.analyze` on the query and the last three history entries. */
  function AnalysisOf(s: Services, v: StateView): Analyzer.Analysis {
    Analyzer.Analyze(s.classify(v.userQuery, LastN(v.conversationHistory, 3)))
  }

  function AnalyzeStep(s: Services, v: StateView): (w: StateView)
    ensures Analysed(w)
    ensures w.processingPath == v.processingPath + ["analyze_request"]
    ensures w.userQuery == v.userQuery && w.conversationHistory == v.conversationHistory
    ensures w.lastTutorial == v.lastTutorial && w.response == v.response
  {
    var a := AnalysisOf(s, v);
    v.(llmIntent := a.intent,
       confidence := a.confidence,
       detectedLanguage := a.language,
       isConfused := a.isConfused,
       stepToClarify := a.stepNumber,
       requiresClarification := a.intent == "clarify" && !StepTruthy(a.stepNumber),
       languageAnalysis := Some(a.language),
       processingPath := v.processingPath + ["analyze_request"])
  }

  function RouteStep(v: StateView): StateView {
    v.(nextNode := Routing.RouteFor(v.llmIntent, v.confidence),
       processingPath := v.processingPath + ["route_decision"])
  }

  // ---------------------------------------------------------------------
  // The agents.

  function GeneralContent(s: Services, urdu: bool, v: StateView): string {
    match s.llm(GeneralPrompt(urdu, LastN(v.conversationHistory, 4), v.userQuery))
    case Reply(text) => text
    case Failed(_) => if urdu then GeneralHelloUrdu else GeneralHello
  }

  function GeneralStep(s: Services, kb: Knowledge.TopicLists, v: StateView): (w: StateView)
    ensures AgentFrame(v, w)
  {
    var urdu := AnalysedAsUrdu(v.languageAnalysis);
    var suggestions := SuggestFor(s, kb, v, "general");
    v.(response := GeneralResponse(GeneralContent(s, urdu, v), suggestions, urdu),
       suggestions := suggestions,
       processingPath := v.processingPath + ["general_agent"])
  }

  function CapabilitiesStep(s: Services, kb: Knowledge.TopicLists, v: StateView): (w: StateView)
    ensures AgentFrame(v, w)
  {
    var urdu := AnalysedAsUrdu(v.languageAnalysis);
    var suggestions := SuggestFor(s, kb, v, "capabilities");
    v.(response := CapabilitiesResponse(suggestions, urdu),
       suggestions := suggestions,
       processingPath := v.processingPath + ["capabilities_agent"])
  }

  /** `step.get("text") or step.get("description", "")`. */
  function OriginalText(step: Fields): Json {
    var t := GetOrNull(step, "text");
    if Truthy(t) then t else GetOr(step, "description", JStr(""))
  }

  /** `step.get("image") or step.get("snapshot")`. */
  function StepImage(step: Fields): Json {
    var i := GetOrNull(step, "image");
    if Truthy(i) then i else GetOrNull(step, "snapshot")
  }

  /** `_clarify_single_step`: the model's stripped text, or the original on failure. */
  function Clarified(s: Services, urdu: bool, number: int, original: Json): Json {
    match s.llm(ClarifyPrompt(urdu, number, original))
    case Reply(text) => JStr(Strip(text))
    case Failed(_) => original
  }

  /** Whether `step_to_clarify` names a step of the last tutorial. */
  predicate InRange(v: StateView) {
    v.stepToClarify.Some? && v.lastTutorial != [] && 1 <= v.stepToClarify.value <= |v.lastTutorial|
  }

  /** `_handle_step_clarification`; it records nothing in the path. */
  function StepClarificationStep(s: Services, kb: Knowledge.TopicLists, v: StateView): (w: StateView)
    requires StepTruthy(v.stepToClarify)
    ensures AgentFrame(v, w)
  {
    var suggestions := SuggestFor(s, kb, v, "clarify");
    if InRange(v) then
      var n := v.stepToClarify.value;
      var step := v.lastTutorial[n - 1];
      var urdu := DetectedAsUrdu(v.detectedLanguage);
      var original := OriginalText(step);
      v.(response := ClarifyResponse(n, original, Clarified(s, urdu, n, original), StepImage(step), suggestions, urdu),
         suggestions := suggestions)
    else
      v.(response := ClarifyErrorResponse(suggestions), suggestions := suggestions)
  }

  /** The retrieval branch of `tutorial_agent`, given the answer of `get_bot_response`. */
  function RetrievalStep(s: Services, kb: Knowledge.TopicLists, v: StateView, answer: Retrieval.BotResponse): (w: StateView)
    ensures AgentFrame(v, w)
  {
    var urdu := AnalysedAsUrdu(v.languageAnalysis);
    var tag := Generators.LanguageTag(urdu);
    if answer.Tutorial? && answer.steps != [] then
      var intro := Generators.Greeting(s.greet, v.userQuery, answer.sectionTitle, tag);
      var suggestions := SuggestFor(s, kb, v, "tutorial");
      v.(response := TutorialResponse(intro, StepEntries(answer.steps), urdu, suggestions),
         suggestions := suggestions,
         processingPath := v.processingPath + ["tutorial_agent"])
    else if answer.NoRelevantContent? then
      var suggestions := SuggestFor(s, kb, v, "fallback");
      v.(response := NoRelevantResponse(v.userQuery, suggestions),
         suggestions := suggestions,
         processingPath := v.processingPath + ["tutorial_agent"])
    else
      var suggestions := SuggestFor(s, kb, v, "tutorial");
      v.(response := TutorialFallbackResponse(v.userQuery, suggestions),
         suggestions := suggestions,
         processingPath := v.processingPath + ["tutorial_agent"])
  }

  /** `tutorial_agent`: a truthy step number is a clarification, anything else retrieval. */
  function TutorialStep(s: Services, kb: Knowledge.TopicLists, v: StateView, answer: Retrieval.BotResponse): (w: StateView)
    ensures AgentFrame(v, w)
  {
    if StepTruthy(v.stepToClarify) then StepClarificationStep(s, kb, v) else RetrievalStep(s, kb, v, answer)
  }

  /** `clarification_agent`: ask which step, or hand over to `tutorial_agent`. */
  function ClarificationStep(s: Services, kb: Knowledge.TopicLists, v: StateView, answer: Retrieval.BotResponse): (w: StateView)
    ensures AgentFrame(v, w)
  {
    if v.requiresClarification then
      var suggestions := SuggestFor(s, kb, v, "clarify");
      v.(response := ClarifyQuestionResponse(suggestions),
         suggestions := suggestions,
         processingPath := v.processingPath + ["clarification_agent"])
    else TutorialStep(s, kb, v, answer)
  }

  /** `history_summary_agent`: the whole history for a summary, the last ten
      entries for a recall. */
  function HistoryStep(s: Services, v: StateView): (w: StateView)
    ensures AgentFrame(v, w)
  {
    var urdu := DetectedAsUrdu(v.detectedLanguage);
    var history := v.conversationHistory;
    if history == [] then v.(response := NoHistoryResponse(urdu))
    else
      var response :=
        if v.llmIntent == "summarization" then
          HistoryResponse(match s.llm(SummaryPrompt(urdu, history))
                          case Reply(text) => text
                          case Failed(_) => SummaryFailed, urdu)
        else if v.llmIntent == "history_recall" then
          HistoryResponse(match s.llm(RecallPrompt(urdu, LastN(history, 10), v.userQuery))
                          case Reply(text) => text
                          case Failed(_) => RecallFailed, urdu)
        else v.response;
      v.(response := response, processingPath := v.processingPath + ["history_summary_agent"])
  }

  function FallbackStep(s: Services, kb: Knowledge.TopicLists, v: StateView): (w: StateView)
    ensures AgentFrame(v, w)
  {
    var suggestions := SuggestFor(s, kb, v, "fallback");
    v.(response := FallbackResponse(suggestions),
       suggestions := suggestions,
       processingPath := v.processingPath + ["fallback_agent"])
  }

  /** `validate_response`: an empty response is marked invalid and the node
      is not recorded; otherwise validity is recorded and so is the node. */
  function ValidateStep(v: StateView): (w: StateView)
    ensures w.responseValid == Some(ResponseValid(w.response))
    ensures w.processingPath == v.processingPath + (if v.response == [] then [] else ["validate_response"])
    ensures w == v.(responseValid := w.responseValid, processingPath := w.processingPath)
  {
    if v.response == [] then v.(responseValid := Some(false))
    else v.(responseValid := Some(ResponseValid(v.response)),
            processingPath := v.processingPath + ["validate_response"])
  }

  // ---------------------------------------------------------------------
  // The run.

  /** Whether the agent `n` asks `get_bot_response` in state `v`. */
  predicate ConsultsCache(n: Routing.Node, v: StateView) {
    !StepTruthy(v.stepToClarify)
    && (n == Routing.TutorialAgent || (n == Routing.ClarificationAgent && !v.requiresClarification))
  }

  /** What `get_bot_response` answers with the cache holding `entries`. */
  function Answer(s: Services, entries: map<string, Retrieval.BotResponse>, query: string): Retrieval.BotResponse {
    if query in entries then entries[query] else Retrieval.Resolve(query, s.search(query), s.select)
  }

  /** The cache after `get_bot_response(query)`. */
  function CacheAfter(s: Services, entries: map<string, Retrieval.BotResponse>, query: string)
    : map<string, Retrieval.BotResponse>
  {
    if query in entries then entries
    else
      var r := Retrieval.Resolve(query, s.search(query), s.select);
      if Retrieval.Cacheable(r) then entries[query := r] else entries
  }

  function AgentStep(n: Routing.Node, s: Services, kb: Knowledge.TopicLists, v: StateView,
                     answer: Retrieval.BotResponse): (w: StateView)
    requires Routing.IsAgent(n)
    ensures AgentFrame(v, w)
  {
    match n
    case GeneralAgent => GeneralStep(s, kb, v)
    case CapabilitiesAgent => CapabilitiesStep(s, kb, v)
    case TutorialAgent => TutorialStep(s, kb, v, answer)
    case ClarificationAgent => ClarificationStep(s, kb, v, answer)
    case HistorySummaryAgent => HistoryStep(s, v)
    case FallbackAgent => FallbackStep(s, kb, v)
  }

  /** The agent `route_decision` hands over to. */
  function ChosenAgent(v: StateView): (n: Routing.Node)
    ensures Routing.IsAgent(n)
  {
    Routing.RouteAlwaysMapped(v.llmIntent, v.confidence);
    Routing.AgentNamed(Routing.RouteFor(v.llmIntent, v.confidence)).value
  }

  /** Below the confidence floor every request goes to the fallback agent;
      above it, "clarify" goes to the clarification agent and both history
      intents to the history agent. */
  lemma ChosenAgentRoutes(v: StateView)
    ensures v.confidence < Routing.ConfidenceFloor ==> ChosenAgent(v) == Routing.FallbackAgent
    ensures v.confidence >= Routing.ConfidenceFloor && v.llmIntent == "clarify" ==>
              ChosenAgent(v) == Routing.ClarificationAgent
    ensures v.confidence >= Routing.ConfidenceFloor && (v.llmIntent == "history_recall" || v.llmIntent == "summarization") ==>
              ChosenAgent(v) == Routing.HistorySummaryAgent
  {
    if v.confidence >= Routing.ConfidenceFloor {
      Routing.RouteTable(v.confidence);
      Routing.RouteTableHistory(v.confidence);
    }
  }

  /** The graph after `analyze_request`: route, one agent, validate. */
  function Dispatch(s: Services, kb: Knowledge.TopicLists, entries: map<string, Retrieval.BotResponse>, analysed: StateView)
    : (StateView, map<string, Retrieval.BotResponse>)
  {
    var routed := RouteStep(analysed);
    var agent := ChosenAgent(analysed);
    var handled := AgentStep(agent, s, kb, routed, Answer(s, entries, routed.userQuery));
    (ValidateStep(handled), if ConsultsCache(agent, routed) then CacheAfter(s, entries, routed.userQuery) else entries)
  }

  /** One run of the graph from `v`: the final state and the cache after it. */
  function Run(s: Services, kb: Knowledge.TopicLists, entries: map<string, Retrieval.BotResponse>, v: StateView)
    : (StateView, map<string, Retrieval.BotResponse>)
  {
    Dispatch(s, kb, entries, AnalyzeStep(s, v))
  }

  /** `response.get("content", "")` as text. */
  function ContentText(response: Fields): string {
    match Get(response, "content")
    case Some(JStr(c)) => c
    case _ => ""
  }

  /** The two entries a turn adds to the history. */
  function TurnEntries(query: string, response: Fields): seq<string> {
    ["User: " + query, "Assistant: " + ContentText(response)]
  }

  /** `{**response, "conversation_history": ..., "detected_intent": ...}`, then formatted. */
  function Output(final: StateView, history: seq<string>): Json {
    FormatValue(JObject(Put(Put(final.response, "conversation_history", Strs(history)),
                            "detected_intent", JStr(final.llmIntent))))
  }

  // ---------------------------------------------------------------------
  // Properties.

  /** The case-sensitive test on `detected_language` is never true for a
      language the analyzer produces. */
  lemma DetectedNeverUrdu(language: string)
    requires language == Analyzer.RomanUrdu || language == Analyzer.English
    ensures !DetectedAsUrdu(language)
  {
  }

  /** The lowered test on the analysed language is true exactly for Roman-Urdu. */
  lemma AnalysedUrduIff(language: string)
    requires language == Analyzer.RomanUrdu || language == Analyzer.English
    ensures AnalysedAsUrdu(Some(language)) <==> language == Analyzer.RomanUrdu
  {
    var l := Lower(language);
    if language == Analyzer.RomanUrdu {
      assert l[0] == 'r' && l[6] == 'u';
    } else {
      assert l[0] == 'e';
    }
  }

  /** After `analyze_request`, the clarification agent hands a "clarify"
      request over only when a step number is set, so the tutorial agent
      clarifies that step and neither agent is recorded in the path. */
  lemma HandOverRecordsNothing(s: Services, kb: Knowledge.TopicLists, v: StateView, answer: Retrieval.BotResponse)
    requires Analysed(v) && v.llmIntent == "clarify" && !v.requiresClarification
    ensures StepTruthy(v.stepToClarify)
    ensures ClarificationStep(s, kb, v, answer) == StepClarificationStep(s, kb, v)
    ensures ClarificationStep(s, kb, v, answer).processingPath == v.processingPath
  {
  }

  /** Step `n` of the last tutorial, when asked for, is answered with the
      clarification of that step: its text (or description) as the original,
      and the model's clarification of it, in the language `detected_language`
      selects; the path is not extended. */
  lemma StepClarificationInRange(s: Services, kb: Knowledge.TopicLists, v: StateView, n: int, step: Fields)
    requires v.stepToClarify == Some(n) && 1 <= n <= |v.lastTutorial| && step == v.lastTutorial[n - 1]
    ensures var w := StepClarificationStep(s, kb, v);
      var urdu := DetectedAsUrdu(v.detectedLanguage);
      && w.response == ClarifyResponse(n, OriginalText(step), Clarified(s, urdu, n, OriginalText(step)),
                                       StepImage(step), w.suggestions, urdu)
      && w.processingPath == v.processingPath
  {
  }

  /** When the clarifier fails, the clarified text is the original one. */
  lemma ClarifiedFallsBack(s: Services, urdu: bool, number: int, original: Json)
    requires s.llm(ClarifyPrompt(urdu, number, original)).Failed?
    ensures Clarified(s, urdu, number, original) == original
  {
  }

  /** Any other step number yields the canned "tutorial_clarify_error". */
  lemma StepClarificationOutOfRange(s: Services, kb: Knowledge.TopicLists, v: StateView)
    requires StepTruthy(v.stepToClarify) && !InRange(v)
    ensures var w := StepClarificationStep(s, kb, v);
      && w.response == ClarifyErrorResponse(w.suggestions)
      && TypeOf(w.response) == Some("tutorial_clarify_error")
      && w.processingPath == v.processingPath
  {
    LeadingValid(ClarifyErrorResponse(SuggestFor(s, kb, v, "clarify")), "tutorial_clarify_error", ClarifyError);
  }

  /** A step number of 0 is falsy: the tutorial agent retrieves instead of clarifying. */
  lemma StepZeroRetrieves(s: Services, kb: Knowledge.TopicLists, v: StateView, answer: Retrieval.BotResponse)
    requires v.stepToClarify == Some(0)
    ensures TutorialStep(s, kb, v, answer) == RetrievalStep(s, kb, v, answer)
  {
  }

  /** Retrieval with a tutorial that has steps gives "tutorial" with the steps
      renumbered from 1. */
  lemma RetrievalFound(s: Services, kb: Knowledge.TopicLists, v: StateView, answer: Retrieval.BotResponse)
    requires answer.Tutorial? && answer.steps != []
    ensures var w := RetrievalStep(s, kb, v, answer);
      && TypeOf(w.response) == Some("tutorial")
      && GetOrNull(w.response, "steps") == JList(StepEntries(answer.steps))
      && w.processingPath == v.processingPath + ["tutorial_agent"]
  {
    var urdu := AnalysedAsUrdu(v.languageAnalysis);
    var intro := Generators.Greeting(s.greet, v.userQuery, answer.sectionTitle, Generators.LanguageTag(urdu));
    TutorialResponseKeys(intro, StepEntries(answer.steps), urdu, SuggestFor(s, kb, v, "tutorial"));
  }

  /** "No relevant content" passes through, with suggestions for the "fallback" intent. */
  lemma RetrievalNothingRelevant(s: Services, kb: Knowledge.TopicLists, v: StateView)
    ensures var w := RetrievalStep(s, kb, v, Retrieval.NoRelevantContent);
      && TypeOf(w.response) == Some("no_relevant_content")
      && w.suggestions == SuggestFor(s, kb, v, "fallback")
  {
    LeadingValid(NoRelevantResponse(v.userQuery, SuggestFor(s, kb, v, "fallback")), "no_relevant_content",
                 NoRelevantContentText(v.userQuery));
  }

  /** Any other answer gives "tutorial_fallback", whose suggestions sit under
      "suggestions" and not under "suggested_actions". */
  lemma RetrievalFallsBack(s: Services, kb: Knowledge.TopicLists, v: StateView, answer: Retrieval.BotResponse)
    requires !(answer.Tutorial? && answer.steps != []) && !answer.NoRelevantContent?
    ensures var w := RetrievalStep(s, kb, v, answer);
      && TypeOf(w.response) == Some("tutorial_fallback")
      && GetOrNull(w.response, "suggestions") == Strs(w.suggestions)
      && !HasKey(w.response, "suggested_actions")
  {
    var suggestions := SuggestFor(s, kb, v, "tutorial");
    TutorialFallbackKeys(v.userQuery, suggestions);
  }

  /** Renumbering: entry `i` is step `i + 1` and keeps the step's text. */
  lemma StepsRenumbered(steps: seq<Retrieval.Step>)
    ensures forall i :: 0 <= i < |steps| ==>
      && StepEntries(steps)[i].JObject?
      && GetOrNull(StepEntries(steps)[i].fields, "step_number") == JInt(i + 1)
      && GetOrNull(StepEntries(steps)[i].fields, "text") == OptStr(steps[i].text)
  {
    forall i | 0 <= i < |steps|
      ensures GetOrNull(StepEntries(steps)[i].fields, "text") == OptStr(steps[i].text)
    {
      GetAt(StepEntries(steps)[i].fields, 1, "text");
    }
  }

  /** `get_bot_response` only adds an entry, and only one that may be cached. */
  lemma CacheAfterGrows(s: Services, entries: map<string, Retrieval.BotResponse>, query: string)
    requires forall q :: q in entries ==> Retrieval.Cacheable(entries[q])
    ensures var after := CacheAfter(s, entries, query);
      && (forall q :: q in entries ==> q in after && after[q] == entries[q])
      && (forall q :: q in after ==> Retrieval.Cacheable(after[q]))
      && (forall q :: q in after && q != query ==> q in entries)
  {
  }

  /** Validating the fallback agent's answer: it is valid, and the path gains
      both nodes. */
  lemma FallbackValidated(s: Services, kb: Knowledge.TopicLists, v: StateView)
    ensures var final := ValidateStep(FallbackStep(s, kb, v));
      && final.response == FallbackResponse(final.suggestions)
      && final.responseValid == Some(true)
      && final.processingPath == v.processingPath + ["fallback_agent", "validate_response"]
  {
    LeadingValid(FallbackResponse(SuggestFor(s, kb, v, "fallback")), "fallback", FallbackContent);
  }

  /** Asking for a recall or summary before anything was said gives the English
      "no conversation" answer, since the case-sensitive language test is never
      true, and the history agent is not recorded in the path. */
  lemma EmptyHistoryValidated(s: Services, v: StateView)
    requires v.conversationHistory == []
    requires v.detectedLanguage == Analyzer.RomanUrdu || v.detectedLanguage == Analyzer.English
    ensures var final := ValidateStep(HistoryStep(s, v));
      && final.response == NoHistoryResponse(false)
      && final.responseValid == Some(true)
      && final.processingPath == v.processingPath + ["validate_response"]
  {
    DetectedNeverUrdu(v.detectedLanguage);
    LeadingValid(NoHistoryResponse(false), "general", NoHistory);
  }
}
