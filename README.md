# MIRA tutorial assistant — a verified Dafny model of its core

MIRA is a chat assistant for a management portal. It answers how-to questions
with step-by-step tutorials retrieved from a vector store, explains single
steps, recalls or summarises the conversation, and keeps chat sessions in a
database. This project models its deterministic core in Dafny and proves what
that core promises:

- **Retrieval** (`step_format.dfy`, `retrieval.dfy`, from `chat.py`): the
  quote-to-bold rewrite `format_step_text`, and `get_bot_response`. The
  resolver has a response cache, a fast path for a very close top match and a
  slow path where a selector picks one candidate title.
- **The agent graph** (`analyzer.dfy`, `knowledge.dfy`, `generators.dfy`,
  `routing.dfy`, `responses.dfy`, `agent.dfy`, `agent_runtime.dfy`, from
  `react_agent_system_langgraph.py`):
  - the normalisation of the request analyzer's answer;
  - the topic lists of the knowledge base;
  - the suggestion and greeting fallbacks;
  - the route table with its confidence floor of 0.4;
  - each agent node and the responses it builds;
  - `validate_response`, `format_response_recursive` and `process_user_query`.

  Module `Agent` gives each node as a function on the state. Module
  `AgentRuntime` holds the `AgentState` object that the node methods update in
  place, and each method is proved equal to its function.
- **Sessions** (`sessions.dfy`, from `session_manager.py`): create, get, save,
  delete and rename over two tables, sessions and their (question, response)
  rows. The proofs cover how a history pairs into rows and reads back.
- **Ingestion** (`ingest.py` → `ingest.dfy`): one document per tutorial
  section. The vector store is synced incrementally by id and content hash.
- **The web layer** (`app.dfy`, from `app.py`): the uploaded-tutorial
  validator, and the `/chat` turn, which flattens the stored history, runs the
  agent, and saves the turn with a title on the first turn.

External services are parameters of the model: the language model, the
classifier, the suggestion and greeting models, the similarity search, the
embedding and the hash. Each is a function value, so every property holds
whatever those services answer. Where a service can fail, its answer is a
`Reply`/`Failed` value or a similar datatype, and the failure path is modelled.

Quirks of the source are kept as written:

- `detected_language` is compared case-sensitively with `urdu`/`roman-urdu`,
  so that test is never true (`Agent.DetectedNeverUrdu`).
- A step number of 0 is falsy, so asking to clarify step 0 retrieves instead
  (`Agent.StepZeroRetrieves`).
- The tutorial fallback carries its suggestions under `suggestions`, not
  `suggested_actions` (`Agent.RetrievalFallsBack`).
- The clarification agent hands a request to the tutorial agent only when a
  step number is set (`analyze_request` asks for clarification exactly when the
  intent is "clarify" and the step number is falsy). The tutorial agent then
  clarifies that step, and neither agent is recorded in the path
  (`Agent.HandOverRecordsNothing`).
- The greeting's canned Urdu line is never chosen with either tag the agents
  pass, `Roman Urdu` or `English` (`Generators.GreetingFallbackWithAgentTag`).
- The knowledge base files a chunk under Roman-Urdu when its language code
  contains "ur", but a caller's language selects that list only when it
  contains "urdu" or "roman". So a code such as `Turkish` is filed under
  Roman-Urdu while its own request reads the English list
  (`Knowledge.FiledRomanUrduNotRequested`).
- `get_session` drops an empty question or response when it reads rows back,
  while `save_session` assumes one row per stored pair of messages. After a
  row with an empty response, the next turn is stored misaligned: one row
  holding the assistant's text as its question and no response
  (`Sessions.EmptyResponseMisaligns`).

## Model

| member | source | states |
|---|---|---|
| StepFormat.MatchEndSound | chat.py:80-82 | what the scan takes for a match at a position is a match of the pattern `(?<!\w)'([^']+)'(?!\w)` there |
| StepFormat.MatchEndComplete | chat.py:80-82 | every match of the pattern at a position is the one the scan finds there (greedy `[^']+` stops at the next quote) |
| StepFormat.FormatPreservesVisible | chat.py:74-82 | formatting only moves quotes and asterisks: every other character, casing included, is kept in order |
| StepFormat.FormatUnchangedIff | chat.py:80-82 | the text comes back unchanged if and only if the pattern matches nowhere in it |
| StepFormat.ContractionsUnchanged | chat.py:81-82 | apostrophes that follow a word character (contractions) never open a match, so such text is unchanged |
| StepFormat.FormatSingleMatch | chat.py:80-82 | a single quoted term becomes `**term**` with its quotes removed and the text around it kept |
| Retrieval.Content | chat.py:110-207 | every kind of result carries a non-empty `content` text; the error text is built from the message of the error raised |
| Retrieval.FirstWithTitle | chat.py:156-159 | the index of the first hit whose section title equals the selected title exactly, or none when no hit carries it |
| Retrieval.NormalizeImage | chat.py:178-181 | a non-empty image path comes out starting with `/`; absent and empty paths, and paths already starting with `/`, are unchanged |
| Retrieval.Choose | chat.py:123-159 | a picked hit is one of the search hits and the choice carries that hit's section title |
| Retrieval.SlowChoice | chat.py:152-159 | a picked hit is one of the search hits and the choice carries that hit's section title |
| Retrieval.FastPathIgnoresSelector | chat.py:123-126 | a top hit closer than 0.15 is taken without calling the selector, whatever the selector would answer |
| Retrieval.SlowPathCandidates | chat.py:129-135 | the selector is shown each non-empty candidate title once, in order of first appearance |
| Retrieval.TruthyTitlesAreHitTitles | chat.py:131-135 | a title is a candidate if and only if it is non-empty and some hit carries it |
| Retrieval.SlowPathAsksSelector | chat.py:127-159 | off the fast path the choice is the selector's answer, asked about the candidate titles |
| Retrieval.SlowPathMatchesExactTitle | chat.py:152-167 | the stripped answer is matched to the first hit with exactly that title; `NONE` or an unknown title gives the no-relevant-content result |
| Retrieval.ErrorsAreNotCached | chat.py:109-207 | a failed search, an empty search and a failed selector give an error result, which is never cached |
| Retrieval.TutorialStepsExpanded | chat.py:168-196 | a tutorial result comes from the chosen hit: no step item raised, each step's text is formatted, each non-empty image path starts with `/`, and the title is the hit's section title or `""` when it has none |
| Retrieval.MalformedStepIsError | chat.py:172-207 | when a step item of the chosen section raises, the answer is an error carrying the first such item's message, and it is not cached |
| Retrieval.CandidateStep | chat.py:131-135 | reading one more hit appends its title unless it is empty or already listed |
| Retrieval.CandidateTitles | chat.py:129-135 | the loop builds exactly the de-duplicated non-empty titles of the hits |
| Retrieval.MatchTitle | chat.py:156-159 | the loop finds the first hit with the selected title, or reports that none has it |
| Retrieval.ExpandAll | chat.py:172-187 | the expansion succeeds exactly when no item raises, and then holds one expanded step per item in order; otherwise it carries the message of the first item that raises |
| Retrieval.ExpandSteps | chat.py:172-187 | the loop computes the function `ExpandAll` |
| Retrieval.ChooseHit | chat.py:118-159 | the choice equals the function `Choose`, and the selector is called exactly off the fast path |
| Retrieval.BuildResponse | chat.py:161-196 | the response equals the function `FromChoice` |
| Retrieval.ResponseCache.constructor | chat.py:84-86 | the cache starts empty |
| Retrieval.ResponseCache.GetBotResponse | chat.py:89-207 | a cached query is answered from the cache without a search; otherwise the result is `Resolve` of the search, and it is stored unless it is an error |
| Retrieval.ResponseCache.AskTwice | chat.py:94-200 | asking twice: unless the first answer was an error, the second is identical and needs no search |
| Retrieval.ResponseCache.RefreshComponents | chat.py:63-71 | a refresh empties the cache |
| Analyzer.NormalizeIntent | react_agent_system_langgraph.py:92-95 | the intent is always one of the seven; a listed intent in any letter case is kept lower-cased, anything else becomes `fallback` |
| Analyzer.Clamp | react_agent_system_langgraph.py:98 | the confidence lies in [0, 1], values inside are kept, values below become 0 and values above become 1 |
| Analyzer.NormalizeLanguage | react_agent_system_langgraph.py:100-105 | `Roman-Urdu` if and only if the lowered language mentions hindi, urdu, roman or hinglish; otherwise `English` |
| Analyzer.Analyze | react_agent_system_langgraph.py:82-120 | the result always has a listed intent, a confidence in [0, 1] and one of the two languages; any failure gives the safe default |
| Analyzer.IntentNormalization | react_agent_system_langgraph.py:93-95 | a missing intent is `fallback`; a listed one is kept lower-cased; an unlisted one becomes `fallback` |
| Analyzer.ConfidenceNormalization | react_agent_system_langgraph.py:98 | a missing confidence is 0.5; a given one is clamped into [0, 1] |
| Analyzer.LanguageNormalization | react_agent_system_langgraph.py:101-105 | the language is `Roman-Urdu` exactly when a variant is mentioned; a missing language reads as `english` and gives `English` |
| Analyzer.FailureGivesSafeDefault | react_agent_system_langgraph.py:112-120 | a failed classification gives intent `fallback`, confidence 0.3, `English`, not confused, no step |
| Analyzer.NeverLowercaseUrduTag | react_agent_system_langgraph.py:100-105 | the analyzer never yields the lower-case tags `urdu` or `roman-urdu` |
| Knowledge.RequestedRomanUrduIsFiled | react_agent_system_langgraph.py:156-173 | a language whose request reads the Roman-Urdu list also files its chunks there |
| Knowledge.FiledRomanUrduNotRequested | react_agent_system_langgraph.py:156-173 | the converse fails: `Turkish` files its chunks under Roman-Urdu, but its own request reads the English list |
| Knowledge.TitlesInMembership | react_agent_system_langgraph.py:154-164 | a title is listed in a bucket exactly when some chunk with a non-empty title files it there |
| Knowledge.TopicsOfStore | react_agent_system_langgraph.py:152-166 | each bucket holds no repeats, no empty title, and exactly the titles its chunks carry, among the entries read before the first one that raises |
| Knowledge.StopsAtUnreadable | react_agent_system_langgraph.py:152-166 | nothing after an entry whose reading raises is ever read: the buckets keep what came before it |
| Knowledge.BucketsPartition | react_agent_system_langgraph.py:159-164 | a chunk contributes to at most one bucket |
| Knowledge.LoadStep | react_agent_system_langgraph.py:154-164 | reading one more chunk appends its title to its bucket unless already there |
| Knowledge.KnowledgeBase.constructor | react_agent_system_langgraph.py:126-132 | a new knowledge base holds the de-duplicated topics of the store, per bucket |
| Knowledge.KnowledgeBase.Refresh | react_agent_system_langgraph.py:134-168 | both buckets are cleared and reloaded; an unreachable store leaves them empty |
| Knowledge.KnowledgeBase.LoadKnowledge | react_agent_system_langgraph.py:140-166 | each bucket becomes the de-duplication of its old list followed by the store's titles for it, up to the first entry that raises |
| Knowledge.KnowledgeBase.AddChunk | react_agent_system_langgraph.py:155-164 | one chunk's title is appended to its own bucket unless empty or already there |
| Knowledge.KnowledgeBase.GetTopics | react_agent_system_langgraph.py:170-173 | a knowledge base whose buckets hold no repeats never answers a repeated topic |
| Knowledge.TopicsAnswered | react_agent_system_langgraph.py:134-173 | after a refresh, the answer for a language has no repeats and holds exactly the titles filed under the bucket that language asks for, among the entries read; an unreachable store gives none |
| Generators.TagSelectsLanguage | react_agent_system_langgraph.py:244-255 | the agents' tag is read as Urdu, selects the Urdu canned suggestions and the Roman-Urdu topic list, exactly when the request is Urdu |
| Generators.Suggestions | react_agent_system_langgraph.py:183-255 | the suggestions are never empty |
| Generators.GreetingUrduOnlyForUrduTag | react_agent_system_langgraph.py:297-307 | a failed greeting call gives the Urdu line only for a language the suggestion generator also reads as Urdu |
| Generators.SuggestionsFallBack | react_agent_system_langgraph.py:228-255 | a non-empty list from the model is returned as it is; anything else gives the canned list of the language |
| Generators.FallbackIntentIgnoresQuery | react_agent_system_langgraph.py:198-202 | for the `fallback` intent two different questions give the same prompt |
| Generators.OtherIntentsCarryQuery | react_agent_system_langgraph.py:198-202 | for every other intent two different questions give different prompts |
| Generators.GreetingFallbackWithAgentTag | react_agent_system_langgraph.py:303-307 | with either tag the agents pass, a failed greeting call yields the English line, because only `urdu` and `roman-urdu` are checked |
| Routing.AgentNamed | react_agent_system_langgraph.py:887-898 | the conditional edge map leads to the one agent node of that name, and to nothing for other names |
| Routing.Successor | react_agent_system_langgraph.py:878-908 | every edge brings the run closer to the end, and every agent's only edge is to validation |
| Routing.RouteAlwaysMapped | react_agent_system_langgraph.py:884-898 | whatever the analysis, the recorded route has an edge to one of the six agents |
| Routing.EveryRunPath | react_agent_system_langgraph.py:878-908 | every run is analyze, route, exactly the chosen agent, validate, end |
| Routing.RouteTable | react_agent_system_langgraph.py:363-372 | at or above the floor, `general`, `tutorial`, `capabilities` and `clarify` reach their own agents |
| Routing.RouteTableHistory | react_agent_system_langgraph.py:368-370 | both history intents reach the history agent, and `fallback` the fallback agent |
| Routing.UnknownIntentFallsBack | react_agent_system_langgraph.py:372 | an intent outside the table reaches the fallback agent, whatever the confidence |
| Routing.LowConfidenceFallsBack | react_agent_system_langgraph.py:360-361 | below 0.4 the intent is ignored and the route is `fallback_agent` |
| Responses.StrsInjective | react_agent_system_langgraph.py:410 | two different suggestion lists never give the same JSON list, so the response keeps the suggestions exactly |
| Responses.StepEntries | react_agent_system_langgraph.py:531-538 | there is one renumbered entry per tutorial step |
| Responses.NoRelevantContentText | react_agent_system_langgraph.py:609-613 | the no-relevant-content text is never empty |
| Responses.LeadingValid | react_agent_system_langgraph.py:817-834 | a response that opens with `type` and a string `content` validates exactly when the content is non-empty |
| Responses.CannedResponsesValid | react_agent_system_langgraph.py:817-834 | the fallback, the clarification error and the clarification question validate, with the types the source writes |
| Responses.NothingFoundResponsesValid | react_agent_system_langgraph.py:817-834 | the no-history answer and the no-relevant-content answer validate |
| Responses.ModelTextResponsesValid | react_agent_system_langgraph.py:826-832 | a general or history answer whose content is the model's text validates exactly when that text is non-empty |
| Responses.ClarifyResponseKeys | react_agent_system_langgraph.py:675-686 | a clarification has type `tutorial_clarify` and carries the step object under `clarified_step` |
| Responses.ClarifyDetailKeys | react_agent_system_langgraph.py:678-683 | the step object carries the original and the clarified text |
| Responses.TutorialResponseKeys | react_agent_system_langgraph.py:578-597 | a tutorial answer has type `tutorial` and carries its renumbered steps under `steps` |
| Responses.TutorialFallbackKeys | react_agent_system_langgraph.py:625-629 | the tutorial fallback validates and keeps its suggestions under `suggestions`, not `suggested_actions` |
| Responses.FormatFields | react_agent_system_langgraph.py:948-949 | formatting an object keeps its keys, in order |
| Responses.FormatGet | react_agent_system_langgraph.py:948-949 | formatting an object formats the value found under each key |
| Responses.FormatKeepsKind | react_agent_system_langgraph.py:944-950 | a string is formatted by `format_step_text`; other values never become strings |
| Responses.FormatValueKeepsText | react_agent_system_langgraph.py:942-950 | formatting the whole output changes no visible text anywhere in it |
| Responses.FormatValueKeepsKeys | react_agent_system_langgraph.py:948-949 | a formatted object has the same keys in the same order, hence the same `type` |
| Agent.SuggestFor | react_agent_system_langgraph.py:396-402 | the suggestions an agent attaches are never empty |
| Agent.AnalyzeStep | react_agent_system_langgraph.py:331-352 | after analysis the intent is listed, the confidence in [0, 1], the language one of two, and clarification is required exactly for `clarify` without a truthy step; the path gains `analyze_request` |
| Agent.GeneralStep | react_agent_system_langgraph.py:377-428 | the general agent changes only the response, the suggestions and the path |
| Agent.CapabilitiesStep | react_agent_system_langgraph.py:430-519 | the capabilities agent changes only the response, the suggestions and the path |
| Agent.StepClarificationStep | react_agent_system_langgraph.py:651-705 | step clarification changes only the response and the suggestions |
| Agent.RetrievalStep | react_agent_system_langgraph.py:526-649 | the retrieval branch changes only the response, the suggestions and the path |
| Agent.TutorialStep | react_agent_system_langgraph.py:521-524 | the tutorial agent changes only the response, the suggestions and the path |
| Agent.ClarificationStep | react_agent_system_langgraph.py:727-750 | the clarification agent changes only the response, the suggestions and the path |
| Agent.HandOverRecordsNothing | react_agent_system_langgraph.py:331-750 | after the analysis, a hand-over to the tutorial agent has a truthy step number, so that step is clarified and the path is not extended |
| Agent.HistoryStep | react_agent_system_langgraph.py:752-815 | the history agent changes only the response and the path |
| Agent.FallbackStep | react_agent_system_langgraph.py:836-856 | the fallback agent changes only the response, the suggestions and the path |
| Agent.ValidateStep | react_agent_system_langgraph.py:817-834 | the recorded flag is exactly the validity of the response; `validate_response` is appended to the path exactly when the response is non-empty; nothing else changes |
| Agent.AgentStep | react_agent_system_langgraph.py:884-898 | whichever agent runs, only the response, the suggestions and the path change |
| Agent.ChosenAgent | react_agent_system_langgraph.py:884-898 | the route always leads to one of the six agents |
| Agent.ChosenAgentRoutes | react_agent_system_langgraph.py:354-375 | below 0.4 the fallback agent runs; above it `clarify` reaches the clarification agent and both history intents the history agent |
| Agent.DetectedNeverUrdu | react_agent_system_langgraph.py:756 | the case-sensitive test on `detected_language` is never true for a language the analyzer produces |
| Agent.AnalysedUrduIff | react_agent_system_langgraph.py:379-380 | the lowered test on the analysed language is true exactly for `Roman-Urdu` |
| Agent.StepClarificationInRange | react_agent_system_langgraph.py:656-686 | step n of the last tutorial is answered with its text or description as the original and the model's clarification of it; the path is not extended |
| Agent.ClarifiedFallsBack | react_agent_system_langgraph.py:722-723 | when the clarifier fails, the clarified text is the original one |
| Agent.StepClarificationOutOfRange | react_agent_system_langgraph.py:688-702 | any other truthy step number yields the canned `tutorial_clarify_error` answer |
| Agent.StepZeroRetrieves | react_agent_system_langgraph.py:523-524 | a step number of 0 is falsy, so the tutorial agent retrieves instead of clarifying |
| Agent.RetrievalFound | react_agent_system_langgraph.py:529-597 | a tutorial with steps gives a `tutorial` answer carrying the steps renumbered from 1 |
| Agent.RetrievalNothingRelevant | react_agent_system_langgraph.py:599-613 | no relevant content passes through, with suggestions for the `fallback` intent |
| Agent.RetrievalFallsBack | react_agent_system_langgraph.py:615-629 | any other answer gives `tutorial_fallback`, whose suggestions sit under `suggestions` and not under `suggested_actions` |
| Agent.StepsRenumbered | react_agent_system_langgraph.py:533-538 | entry i carries step number i + 1 and the step's text |
| Agent.CacheAfterGrows | chat.py:95-200 | a retrieval only adds an entry to the cache, and only one that may be cached |
| Agent.FallbackValidated | react_agent_system_langgraph.py:817-856 | the fallback answer validates, and the path gains both nodes |
| Agent.EmptyHistoryValidated | react_agent_system_langgraph.py:756-763 | a recall or summary with no history gives the English no-conversation answer, and the history agent is not recorded in the path |
| AgentRuntime.AgentState.constructor | react_agent_system_langgraph.py:969-984 | the graph starts from the initial state: the query and history given, empty intent, zero confidence, `english`, no step, empty response, suggestions and path |
| AgentRuntime.FormatSteps | react_agent_system_langgraph.py:531-538 | the renumbering loop builds exactly the renumbered step entries |
| AgentRuntime.AgentNodes.constructor | react_agent_system_langgraph.py:314-322 | new nodes hold a fresh knowledge base loaded from the store |
| AgentRuntime.AgentNodes.Refresh | react_agent_system_langgraph.py:317-322 | a refresh replaces the knowledge base with a fresh one loaded from the store |
| AgentRuntime.AgentNodes.AnalyzeRequest | react_agent_system_langgraph.py:331-352 | the state is updated in place exactly as `Agent.AnalyzeStep` says |
| AgentRuntime.AgentNodes.RouteDecision | react_agent_system_langgraph.py:354-375 | the state records the route of `Routing.RouteFor` and the path gains `route_decision` |
| AgentRuntime.AgentNodes.GeneralAgent | react_agent_system_langgraph.py:377-428 | the state is updated in place exactly as `Agent.GeneralStep` says |
| AgentRuntime.AgentNodes.CapabilitiesAgent | react_agent_system_langgraph.py:430-519 | the state is updated in place exactly as `Agent.CapabilitiesStep` says |
| AgentRuntime.AgentNodes.HandleStepClarification | react_agent_system_langgraph.py:651-723 | the state is updated in place exactly as `Agent.StepClarificationStep` says |
| AgentRuntime.AgentNodes.TutorialAgent | react_agent_system_langgraph.py:521-527 | a truthy step is clarified without touching the cache; otherwise the cache is asked and the answer presented |
| AgentRuntime.AgentNodes.PresentAnswer | react_agent_system_langgraph.py:529-649 | the state is updated in place exactly as `Agent.RetrievalStep` says |
| AgentRuntime.AgentNodes.ClarificationAgent | react_agent_system_langgraph.py:727-750 | the state is updated as `Agent.ClarificationStep` says, and the cache is consulted only when the request is handed to the tutorial agent |
| AgentRuntime.AgentNodes.HistorySummaryAgent | react_agent_system_langgraph.py:752-815 | the state is updated in place exactly as `Agent.HistoryStep` says |
| AgentRuntime.AgentNodes.FallbackAgent | react_agent_system_langgraph.py:836-856 | the state is updated in place exactly as `Agent.FallbackStep` says |
| AgentRuntime.AgentNodes.ValidateResponse | react_agent_system_langgraph.py:817-834 | the state is updated in place exactly as `Agent.ValidateStep` says |
| AgentRuntime.AgentNodes.RunAgent | react_agent_system_langgraph.py:887-898 | the chosen agent node runs and the cache changes only when that agent consults it |
| AgentRuntime.AgentNodes.RunPlainAgent | react_agent_system_langgraph.py:887-898 | the four agents that do not retrieve update the state whatever the retrieval answer would be |
| AgentRuntime.AgentNodes.AnalyzeAndRoute | react_agent_system_langgraph.py:878-889 | the state is analysed and routed, and the agent returned is the one the route names |
| AgentRuntime.AgentNodes.Invoke | react_agent_system_langgraph.py:860-908 | one graph invocation leaves the state and the cache exactly as `Agent.Run` says |
| AgentRuntime.AgentNodes.RunAgentAndValidate | react_agent_system_langgraph.py:901-908 | the chosen agent then validation leave the state and the cache as `Agent.Dispatch` says |
| AgentRuntime.ProcessUserQuery | react_agent_system_langgraph.py:961-1004 | the history gains exactly the user entry and the assistant entry; the output is the final response with the history and intent added, formatted |
| AgentRuntime.RefreshKnowledgeBase | react_agent_system_langgraph.py:917-935 | the retrieval cache is emptied and the nodes are rebuilt over the current store |
| Sessions.ShortTitleShape | session_manager.py:86 | a title of at most 50 characters is kept; a longer one becomes its first 50 characters followed by `...` |
| Sessions.ShortTitleIdempotent | session_manager.py:86 | shortening an already shortened title changes nothing |
| Sessions.Turns | session_manager.py:108-114 | a history of n messages pairs into (n + 1) / 2 turns |
| Sessions.DropStored | session_manager.py:117 | skipping as many turns as were stored leaves exactly the turns added since |
| Sessions.TurnsOfPair | session_manager.py:108-117 | a user and an assistant message after an even-length history add exactly one turn |
| Sessions.AlternatingFront | session_manager.py:51-64 | an alternating history minus its last two messages is alternating, and those two are a user and an assistant message |
| Sessions.RebuildTurns | session_manager.py:51-114 | saving an alternating history and reading it back gives it unchanged, as complete rows |
| Sessions.TurnsRebuild | session_manager.py:51-114 | reading complete rows back and pairing the result again gives the same rows, as an alternating history |
| Sessions.AlternatingSnoc | session_manager.py:99-100 | a user and an assistant message appended to an alternating history keep it alternating |
| Sessions.SaveOneTurn | session_manager.py:97-127 | stored complete rows plus one user and one assistant message are saved by inserting exactly one new row |
| Sessions.EmptyResponseMisaligns | session_manager.py:54-117 | after a row with an empty response, the next turn inserts one row holding the assistant's text as its question and no response |
| Sessions.Lookup | session_manager.py:28-41 | a session is found if and only if its id is stored under that user |
| Sessions.SessionStore.constructor | session_manager.py:8-10 | a new store has no sessions and no rows |
| Sessions.SessionStore.CreateSession | session_manager.py:12-26 | a new header titled `New Chat` is stored under the fresh id for the user; no rows change |
| Sessions.SessionStore.GetSession | session_manager.py:28-73 | the answer is `Lookup`: nothing for another user's or an unknown session, else the header and the history rebuilt from the rows in id order |
| Sessions.SessionStore.SaveSession | session_manager.py:75-131 | a non-empty title is stored shortened; the turns past the stored row count are appended; the session is read back |
| Sessions.SessionStore.InsertRows | session_manager.py:123-127 | the insert loop appends every new row, in order, and touches no header |
| Sessions.SessionStore.DeleteSession | session_manager.py:145-156 | true if and only if the session belonged to the user, in which case its header and its rows go |
| Sessions.SessionStore.RenameSession | session_manager.py:158-168 | true if and only if the session belonged to the user, in which case the title is stored as given |
| Sessions.PairTurns | session_manager.py:108-114 | the pairing loop builds exactly `Turns(history)` |
| Ingest.FileDocs | ingest.py:25-50 | a file yields one document per section, in order |
| Ingest.LoadJsonDocs | ingest.py:16-52 | the loading loops build exactly the documents of all files, file after file, section after section |
| Ingest.DocsCount | ingest.py:16-52 | there is exactly one document per section of all files |
| Ingest.DocsOrder | ingest.py:18-50 | section s of file f sits after every section of the files before f, at its own position |
| Ingest.DocIdShape | ingest.py:96 | an id has no spaces, the length of source, `_` and title, and equals that concatenation when neither part has a space |
| Ingest.IdList | ingest.py:96-97 | `current_ids` holds the id of every document, in order |
| Ingest.CountsAddUp | ingest.py:104-120 | every new or changed document is counted once, as new or as changed |
| Ingest.UpsertsCover | ingest.py:104-120 | a document is upserted, with its hash in its metadata, if and only if it is new or its stored hash differs |
| Ingest.UpsertsDistinct | ingest.py:96-120 | with distinct document ids the upserted ids are distinct, and an unchanged document's id is not upserted |
| Ingest.FrontUpsertsMissLast | ingest.py:96-120 | with distinct ids, no earlier upsert carries the last document's id |
| Ingest.ApplyUpsertsLookup | ingest.py:133-139 | upserting items with distinct ids stores each under its id and leaves every other id as it was |
| Ingest.SyncedKeys | ingest.py:124-139 | after a sync the store holds exactly the ids of the current documents |
| Ingest.ApplyUpsertsKeys | ingest.py:133-139 | the keys after upserting are the keys before plus the upserted ids |
| Ingest.SecondSyncIsQuiet | ingest.py:94-145 | running the sync again on the same documents finds nothing to upsert and nothing to delete |
| Ingest.NothingNeeded | ingest.py:117-143 | when no document is new or changed the upsert list is empty |
| Ingest.VectorStore.constructor | ingest.py:73-82 | the store starts with the given entries and no calls |
| Ingest.VectorStore.Delete | ingest.py:130 | the given ids are removed and one delete call is recorded |
| Ingest.VectorStore.AddTexts | ingest.py:135-139 | the items are upserted by id in list order and one upsert call is recorded |
| Ingest.PlanStep | ingest.py:94-120 | one more document extends the upsert list, the id list and the two counts by that document's share |
| Ingest.Plan | ingest.py:85-120 | the classification loop builds exactly the upsert list, the id list and the new and changed counts |
| Ingest.SyncIndex | ingest.py:59-147 | with no documents nothing happens; otherwise stale ids are deleted only if there are any, new or changed documents upserted only if there are any, and the counts reported |
| App.FirstMissingNone | app.py:35-41 | no root field is reported missing if and only if every required root field is truthy |
| App.CheckStepsValid | app.py:50-52 | the steps pass if and only if every step is a dict with a truthy description |
| App.CheckSectionValid | app.py:43-52 | a section passes if and only if it has a truthy title and description and a non-empty list of good steps |
| App.CheckSectionsValid | app.py:43-52 | the sections pass if and only if every section passes |
| App.ValidIffWellFormed | app.py:33-53 | the validator returns `None` if and only if the data is well-formed, field by field |
| App.FirstMissingIsFirst | app.py:39-41 | the first falsy field in the list is the one reported |
| App.RootFieldOrder | app.py:35-41 | root fields are checked in order, `original_filename` last when asked for, and the first falsy one is reported whatever the sections hold |
| App.FirstBadSectionDecides | app.py:43-52 | sections are checked in order and the first failing section decides the message |
| App.TitleCheckedFirst | app.py:44-48 | a section missing its title or description is reported as such whatever its steps hold |
| App.OriginalFilenameIgnored | app.py:36-37 | without `check_original`, `original_filename` plays no part |
| App.FirstMissingSame | app.py:39-41 | data that agree on the listed fields get the same report |
| App.Flattened | app.py:83-89 | the simple history has one line per stored message |
| App.FlattenHistory | app.py:83-89 | the flattening loop builds exactly `Flattened(history)` |
| App.LineRoundTrip | app.py:86-87 | each flattened line reads back as whether the message was the user's, and its content |
| App.ContentOfOutput | app.py:98-101 | the content stored for the assistant is the final response's own content, formatted |
| App.ContentOfFormatted | react_agent_system_langgraph.py:948-949 | the content of a formatted object is its own content, formatted |
| App.TitleOnFirstTurnOnly | app.py:105-108 | the title is passed exactly when the stored history was empty |
| App.RecordTurn | app.py:94-110 | the user and assistant messages are appended and saved, with the message as title on the first turn only |
| App.AgentTurn | app.py:81-92 | the agent runs on the message and the flattened stored history; the response is its formatted output |
| App.ChatInSession | app.py:76-112 | the reply is status 200 with the agent's output, the cache is as the run leaves it, and the turn is saved |
| App.Chat | app.py:61-112 | an empty session id gives 400 and a missing session 404, both changing nothing; otherwise the agent's output is returned with status 200 and the turn saved |

## Left out

- Language-model, classifier, embedding and similarity-search internals are left out. Each service is a function parameter whose answer, success or failure, the model handles.
- The vector store (Chroma), SQLite and `database.py` are not part of this model. The store and the two session tables are Dafny maps, and foreign keys are not enforced: a save for an unknown session id still stores rows.
- Flask routing, CORS, templates, image upload and the tutorial-JSON upload, edit and delete endpoints are left out. So is `list_sessions`, whose order depends on timestamps. Only `validate_tutorial_data` and `chat()` are modelled from `app.py`.
- Timestamps (`date`, `time`, `updated_at`, `created_at`) and `datetime.now()` are left out.
- `uuid.uuid4()` is left out. `Sessions.SessionStore.CreateSession` takes the fresh id as a parameter and requires that it is unused.
- SHA-256 in `compute_hash` is a parameter of type `Hasher`. `json.dumps` of the steps is a parameter. The `response_metadata` column holds the decoded JSON value, not its text.
- `json.load` of tutorial files and `Path.glob` are left out. Files arrive already parsed, as `Ingest.TutorialFile`, in glob order. Keys missing from a file (`data.get(...)` giving `None`) are not modelled.
- `print` output, progress messages and the log lines of `ingest.py` are left out.
- The thread pools in `general_agent` and `tutorial_agent` are left out. The two calls they run do not interact, so the model makes them one after the other.
- The LangGraph checkpointer, `MemorySaver` and the thread id are left out. The graph is the fixed path proved in `Routing.EveryRunPath`.
- `refresh_knowledge_base_deprecated` is left out because nothing calls it.
- The static `features` list of `capabilities_agent` is not part of this model. The response keeps every other key.
- String functions cover ASCII only: `lower`, `strip`, `\w` in the bold rewrite, and `str(int)`. No Unicode case folding is modelled.
- The analyzer's `step_number` is an integer or absent. A non-integer value there, which would make `1 <= step_idx` raise, is not modelled. A wrongly typed `intent`, `confidence` or `language` gives the safe default, as the `except` branch does.
- Analyzer.Analyze: the `original_query` key and any other keys the classifier may return are not carried.
- The suggestion generator's prompt text, its regex extraction of a JSON array, and the parsing are left out. The model's answer is a list of strings, some other JSON value, or a failure.
- Generators.Suggestions: a non-empty list whose items are not all strings (`[1, {"a": 2}]`) is returned as it is by the source and becomes the agent's suggestions. The model's answer type holds only lists of strings, so such a list is not modelled.
- `tutorial_agent`'s own `except` branch ("Error retrieving tutorial.") is not modelled. Every call inside its `try` handles its own failures in this model, so the branch is unreachable.
- The `except` branch of `process_user_query` ("I encountered an error: ...") is not modelled. The one path into it the model could see is a malformed `last_tutorial`: it comes from the request body unchecked, and a step clarification on an item that is not an object (or on a `last_tutorial` that is a string) raises in `_handle_step_clarification`, outside any inner `try`. The model types `last_tutorial` as a list of objects, so that input and its error answer are not represented.
- The `except` branch of `chat()` is not modelled: every failure the model represents is handled before it.
- A stored step item's `description` and `snapshot` are strings or absent. A non-string `description`, which `format_step_text` passes through, and a falsy non-string `snapshot` (`0`, `false`, `[]`), which is kept as it is, are not modelled. Items that raise (not an object, or a truthy non-string `snapshot`) are modelled.
- A `section_title` key holding `None` is treated like a missing key. In the source, `get("section_title", "")` gives `None` for it, not `""`.
- A knowledge-base chunk whose `section_title` is truthy but not a string is not modelled. Entries whose reading raises (`None`, or a non-string `language`) are modelled.
- Retrieval.ResponseCache.GetBotResponse: results are compared by value. The source's cache hands out the same dict object every time.
- App.Chat: the message is a string. A request without `"message"` (`None`) is not modelled. A session id that is falsy in other ways than `""` (`None`, a missing key) is treated like `""`.
- App.FlattenHistory: stored history items are always messages. The `str(msg)` branch for other items cannot arise from the session store.
- App.ContentOf: a non-string `content` in the formatted response is stored as `""`.
- Ingest.VectorStore.AddTexts: a batch holding the same id twice is applied last-wins on the map. Chroma rejects such a batch instead.
- Ingest.SyncIndex: the lemmas about a second sync assume distinct document ids. When two sections share an id in one batch, `Plan` still mirrors the source exactly, but `Ingest.SecondSyncIsQuiet` makes no claim.
