/** The web application's own logic (app.py): the validator for uploaded
    tutorial JSON, and the chat turn, which flattens the stored history for
    the agent, runs it, and saves the turn back to the session. */
module App {
  import opened Wrappers
  import opened Json
  import Sessions
  import Agent
  import AgentRuntime
  import Retrieval
  import Knowledge
  import Responses
  import StepFormat

  // ---------------------------------------------------------------------
  // validate_tutorial_data

  /** The validator's outcome: `None`, an error message, or an exception
      (a value of the wrong shape reaching `.get` or a `for` loop). */
  datatype Verdict = Valid | Invalid(message: string) | Raises

  const SectionMessage := "Section title and description are required"
  const NoStepsMessage := "Each section must have at least one step"
  const StepMessage := "Step description is required"

  /** The root fields checked, in order. */
  function RequiredRoot(checkOriginal: bool): seq<string> {
    ["tutorial_name", "language", "json_filename", "sections"]
    + (if checkOriginal then ["original_filename"] else [])
  }

  /** The first of `fields` that `data` lacks or holds a falsy value for. */
  function FirstMissing(data: Fields, fields: seq<string>): Option<string> {
    if fields == [] then None
    else if !Truthy(GetOrNull(data, fields[0])) then Some(fields[0])
    else FirstMissing(data, fields[1..])
  }

  /** One step: a dict with a truthy description. */
  function CheckStep(step: Json): Verdict {
    match step
    case JObject(fs) => if Truthy(GetOrNull(fs, "description")) then Valid else Invalid(StepMessage)
    case _ => Raises
  }

  /** The steps in order; the first that is not valid decides. */
  function CheckSteps(steps: seq<Json>): Verdict {
    if steps == [] then Valid
    else if CheckStep(steps[0]) != Valid then CheckStep(steps[0])
    else CheckSteps(steps[1..])
  }

  /** One section: title and description first, then the presence of steps,
      then each step. A truthy `steps` that is not a list cannot be iterated
      as a list of dicts. */
  function CheckSection(section: Json): Verdict {
    match section
    case JObject(fs) =>
      if !Truthy(GetOrNull(fs, "section_title")) || !Truthy(GetOrNull(fs, "description")) then
        Invalid(SectionMessage)
      else if !Truthy(GetOrNull(fs, "steps")) then Invalid(NoStepsMessage)
      else (match GetOrNull(fs, "steps")
            case JList(steps) => CheckSteps(steps)
            case _ => Raises)
    case _ => Raises
  }

  function CheckSections(sections: seq<Json>): Verdict {
    if sections == [] then Valid
    else if CheckSection(sections[0]) != Valid then CheckSection(sections[0])
    else CheckSections(sections[1..])
  }

  /** `validate_tutorial_data(data, check_original)`. */
  function ValidateTutorialData(data: Fields, checkOriginal: bool): Verdict {
    match FirstMissing(data, RequiredRoot(checkOriginal))
    case Some(field) => Invalid(field + " is required")
    case None =>
      match GetOr(data, "sections", JList([]))
      case JList(sections) => CheckSections(sections)
      case _ => Raises
  }

  /** A step that passes: a dict with a truthy description. */
  ghost predicate GoodStep(step: Json) {
    step.JObject? && Truthy(GetOrNull(step.fields, "description"))
  }

  /** A section that passes: a dict with truthy title and description and a
      non-empty list of good steps. */
  ghost predicate GoodSection(section: Json) {
    && section.JObject?
    && Truthy(GetOrNull(section.fields, "section_title"))
    && Truthy(GetOrNull(section.fields, "description"))
    && GetOrNull(section.fields, "steps").JList?
    && GetOrNull(section.fields, "steps").items != []
    && forall i :: 0 <= i < |GetOrNull(section.fields, "steps").items| ==>
         GoodStep(GetOrNull(section.fields, "steps").items[i])
  }

  /** Tutorial data the validator accepts, stated field by field. */
  ghost predicate WellFormedTutorial(data: Fields, checkOriginal: bool) {
    && (forall f :: f in RequiredRoot(checkOriginal) ==> Truthy(GetOrNull(data, f)))
    && GetOrNull(data, "sections").JList?
    && forall i :: 0 <= i < |GetOrNull(data, "sections").items| ==>
         GoodSection(GetOrNull(data, "sections").items[i])
  }

  lemma {:induction false} FirstMissingNone(data: Fields, fields: seq<string>)
    ensures FirstMissing(data, fields).None? <==> forall f :: f in fields ==> Truthy(GetOrNull(data, f))
  {
    if fields != [] {
      FirstMissingNone(data, fields[1..]);
      assert forall f :: f in fields <==> f == fields[0] || f in fields[1..];
    }
  }

  lemma {:induction false} CheckStepsValid(steps: seq<Json>)
    ensures CheckSteps(steps) == Valid <==> forall i :: 0 <= i < |steps| ==> GoodStep(steps[i])
  {
    if steps != [] {
      CheckStepsValid(steps[1..]);
      assert forall i :: 1 <= i < |steps| ==> steps[i] == steps[1..][i - 1];
    }
  }

  lemma CheckSectionValid(section: Json)
    ensures CheckSection(section) == Valid <==> GoodSection(section)
  {
    if section.JObject? && GetOrNull(section.fields, "steps").JList? {
      CheckStepsValid(GetOrNull(section.fields, "steps").items);
    }
  }

  lemma {:induction false} CheckSectionsValid(sections: seq<Json>)
    ensures CheckSections(sections) == Valid <==> forall i :: 0 <= i < |sections| ==> CheckSection(sections[i]) == Valid
  {
    if sections != [] {
      CheckSectionsValid(sections[1..]);
      assert forall i :: 1 <= i < |sections| ==> sections[i] == sections[1..][i - 1];
    }
  }

  /** The validator returns `None` exactly for well-formed tutorial data. */
  lemma ValidIffWellFormed(data: Fields, checkOriginal: bool)
    ensures ValidateTutorialData(data, checkOriginal) == Valid <==> WellFormedTutorial(data, checkOriginal)
  {
    FirstMissingNone(data, RequiredRoot(checkOriginal));
    assert "sections" in RequiredRoot(checkOriginal);
    if FirstMissing(data, RequiredRoot(checkOriginal)).None? {
      assert GetOr(data, "sections", JList([])) == GetOrNull(data, "sections");
      if GetOrNull(data, "sections").JList? {
        var sections := GetOrNull(data, "sections").items;
        CheckSectionsValid(sections);
        forall i | 0 <= i < |sections| ensures CheckSection(sections[i]) == Valid <==> GoodSection(sections[i]) {
          CheckSectionValid(sections[i]);
        }
      }
    }
  }

  lemma {:induction false} FirstMissingIsFirst(data: Fields, fields: seq<string>, i: nat)
    requires i < |fields| && !Truthy(GetOrNull(data, fields[i]))
    requires forall j :: 0 <= j < i ==> Truthy(GetOrNull(data, fields[j]))
    ensures FirstMissing(data, fields) == Some(fields[i])
  {
    if i > 0 {
      FirstMissingIsFirst(data, fields[1..], i - 1);
    }
  }

  /** Root fields are checked in order: the first falsy one is reported,
      whatever the sections hold. */
  lemma RootFieldOrder(data: Fields, checkOriginal: bool, i: nat)
    requires i < |RequiredRoot(checkOriginal)|
    requires !Truthy(GetOrNull(data, RequiredRoot(checkOriginal)[i]))
    requires forall j :: 0 <= j < i ==> Truthy(GetOrNull(data, RequiredRoot(checkOriginal)[j]))
    ensures ValidateTutorialData(data, checkOriginal) == Invalid(RequiredRoot(checkOriginal)[i] + " is required")
  {
    FirstMissingIsFirst(data, RequiredRoot(checkOriginal), i);
  }

  /** Sections are checked in order: the first section that fails decides. */
  lemma {:induction false} FirstBadSectionDecides(sections: seq<Json>, i: nat)
    requires i < |sections| && CheckSection(sections[i]) != Valid
    requires forall j :: 0 <= j < i ==> CheckSection(sections[j]) == Valid
    ensures CheckSections(sections) == CheckSection(sections[i])
  {
    if i > 0 {
      FirstBadSectionDecides(sections[1..], i - 1);
    }
  }

  /** Title and description are checked before the steps: a section missing
      either is reported as such whatever its steps hold. */
  lemma TitleCheckedFirst(fs: Fields, steps: Json)
    requires !Truthy(GetOrNull(fs, "section_title")) || !Truthy(GetOrNull(fs, "description"))
    ensures CheckSection(JObject(Put(fs, "steps", steps))) == Invalid(SectionMessage)
  {
    var fs' := Put(fs, "steps", steps);
    assert Get(fs', "section_title") == Get(fs, "section_title");
    assert Get(fs', "description") == Get(fs, "description");
  }

  /** Without `check_original`, `original_filename` plays no part. */
  lemma OriginalFilenameIgnored(data: Fields, v: Json)
    ensures ValidateTutorialData(Put(data, "original_filename", v), false) == ValidateTutorialData(data, false)
  {
    var d2 := Put(data, "original_filename", v);
    assert forall f :: f in RequiredRoot(false) ==> GetOrNull(d2, f) == GetOrNull(data, f);
    FirstMissingSame(data, d2, RequiredRoot(false));
    assert Get(d2, "sections") == Get(data, "sections");
  }

  lemma {:induction false} FirstMissingSame(a: Fields, b: Fields, fields: seq<string>)
    requires forall f :: f in fields ==> GetOrNull(a, f) == GetOrNull(b, f)
    ensures FirstMissing(a, fields) == FirstMissing(b, fields)
  {
    if fields != [] {
      FirstMissingSame(a, b, fields[1..]);
    }
  }

  // ---------------------------------------------------------------------
  // History flattening

  /** `"User"` for a user message, `"Assistant"` for anything else. */
  function RoleLabel(m: Sessions.Message): string {
    if m.role == "user" then "User" else "Assistant"
  }

  /** `f"{role}: {msg.get('content', '')}"`. */
  function Line(m: Sessions.Message): string {
    RoleLabel(m) + ": " + m.content
  }

  /** The `simple_history` the agent receives. */
  function Flattened(history: seq<Sessions.Message>): (r: seq<string>)
    ensures |r| == |history|
  {
    seq(|history|, i requires 0 <= i < |history| => Line(history[i]))
  }

  /** The flattening loop of `chat()`. */
  method FlattenHistory(history: seq<Sessions.Message>) returns (simple: seq<string>)
    ensures simple == Flattened(history)
  {
    simple := [];
    var i := 0;
    while i < |history|
      invariant 0 <= i <= |history|
      invariant simple == Flattened(history[..i])
    {
      var msg := history[i];
      var role := if msg.role == "user" then "User" else "Assistant";
      simple := simple + [role + ": " + msg.content];
      i := i + 1;
    }
    assert history[..i] == history;
  }

  /** Reads a flattened line back: the role and the content. */
  function ParseLine(line: string): Option<(bool, string)> {
    if |line| >= 6 && line[..6] == "User: " then Some((true, line[6..]))
    else if |line| >= 11 && line[..11] == "Assistant: " then Some((false, line[11..]))
    else None
  }

  /** Flattening loses nothing but the distinction between non-user roles:
      each line reads back as whether the message was the user's, and its
      content. */
  lemma LineRoundTrip(m: Sessions.Message)
    ensures ParseLine(Line(m)) == Some((m.role == "user", m.content))
  {
    var line := Line(m);
    if m.role == "user" {
      assert line[..6] == "User: ";
      assert line[6..] == m.content;
    } else {
      assert line[..6] != "User: " by {
        assert line[0] == 'A';
      }
      assert line[..11] == "Assistant: ";
      assert line[11..] == m.content;
    }
  }

  // ---------------------------------------------------------------------
  // The chat turn

  /** The HTTP status and JSON body of a `/chat` reply. */
  datatype ChatReply = ChatReply(status: nat, body: Json)

  function ErrorReply(status: nat, message: string): ChatReply {
    ChatReply(status, JObject([("error", JStr(message))]))
  }

  /** `response.get("content", "")` on the formatted response. */
  function ContentOf(response: Json): string {
    match response
    case JObject(fs) => Agent.ContentText(fs)
    case _ => ""
  }

  /** The content of the formatted response, read off the final state: its
      own content, formatted, when that is a string. */
  function OutputContent(final: Agent.StateView): string {
    match Get(final.response, "content")
    case Some(JStr(c)) => StepFormat.FormatStepText(c)
    case _ => ""
  }

  /** The content `chat()` stores for the assistant is the formatted
      response's, whatever history the response carries. */
  lemma ContentOfOutput(final: Agent.StateView, history: seq<string>)
    ensures ContentOf(Agent.Output(final, history)) == OutputContent(final)
  {
    var fs1 := Put(final.response, "conversation_history", Responses.Strs(history));
    var fs := Put(fs1, "detected_intent", JStr(final.llmIntent));
    assert Get(fs, "content") == Get(final.response, "content") by {
      assert Get(fs, "content") == Get(fs1, "content");
    }
    ContentOfFormatted(fs);
  }

  /** The content of a formatted object is its own content, formatted. */
  lemma ContentOfFormatted(fs: Fields)
    ensures ContentOf(Responses.FormatValue(JObject(fs))) ==
      match Get(fs, "content")
      case Some(JStr(c)) => StepFormat.FormatStepText(c)
      case _ => ""
  {
    var out := Responses.FormatValue(JObject(fs));
    Responses.FormatGet(fs, "content");
    assert ContentOf(out) == Agent.ContentText(out.fields);
    match Get(fs, "content")
    case None =>
    case Some(v) =>
      Responses.FormatKeepsKind(v);
  }

  /** The two messages a turn appends to the full history. */
  function TurnMessages(message: string, content: string, response: Json): seq<Sessions.Message> {
    [Sessions.Message("user", message, None),
     Sessions.Message("assistant", content, Some(response))]
  }

  /** The title `chat()` passes to `save_session`: the message, on the
      first turn only. */
  function TurnTitle(full: seq<Sessions.Message>, message: string): Option<string> {
    if |full| <= 2 then Some(message) else None
  }

  /** The title is passed exactly when the stored history was empty. */
  lemma TitleOnFirstTurnOnly(history: seq<Sessions.Message>, message: string, content: string, response: Json)
    ensures var full := history + TurnMessages(message, content, response);
      TurnTitle(full, message) == (if history == [] then Some(message) else None)
  {
  }

  /** The part of `chat()` after the agent has answered: append the user and
      assistant messages to the full history and save it, with the message as
      title on the first turn. `final` and `agentHistory` are the agent's
      final state and history, of which `response` is the formatted output. */
  method RecordTurn(store: Sessions.SessionStore, userId: string, sessionId: string,
                    history: seq<Sessions.Message>, message: string, response: Json,
                    ghost final: Agent.StateView, ghost agentHistory: seq<string>)
    requires response == Agent.Output(final, agentHistory)
    modifies store
    ensures var full := history + TurnMessages(message, OutputContent(final), response);
      && store.headers == Sessions.SavedHeaders(old(store.headers), sessionId, TurnTitle(full, message))
      && store.rows == old(store.rows)[sessionId := Sessions.RowsOf(old(store.rows), sessionId)
           + Sessions.Drop(Sessions.Turns(full), |Sessions.RowsOf(old(store.rows), sessionId)|)]
  {
    var content := ContentOf(response);
    ContentOfOutput(final, agentHistory);
    var fullHistory := history + [Sessions.Message("user", message, None)];
    fullHistory := fullHistory + [Sessions.Message("assistant", content, Some(response))];
    assert fullHistory == history + TurnMessages(message, content, response);
    var title := if |fullHistory| <= 2 then Some(message) else None;
    var _ := store.SaveSession(userId, sessionId, fullHistory, title);
  }

  /** The agent's run on `message` given the stored history: its final state
      and the cache after it. */
  function AgentRun(services: Agent.Services, kb: Knowledge.TopicLists, entries: map<string, Retrieval.BotResponse>,
                    message: string, history: seq<Sessions.Message>, lastTutorial: seq<Fields>)
    : (Agent.StateView, map<string, Retrieval.BotResponse>)
  {
    Agent.Run(services, kb, entries, Agent.InitialView(message, Flattened(history), lastTutorial))
  }

  /** The history the agent's output carries: the flattened history and the
      turn's two entries. */
  function AgentHistory(message: string, history: seq<Sessions.Message>, final: Agent.StateView): seq<string> {
    Flattened(history) + Agent.TurnEntries(message, final.response)
  }

  /** The agent's part of `chat()`: flatten the stored history and process
      the message. */
  method AgentTurn(nodes: AgentRuntime.AgentNodes, cache: Retrieval.ResponseCache,
                   message: string, history: seq<Sessions.Message>, lastTutorial: seq<Fields>)
    returns (response: Json, ghost final: Agent.StateView)
    requires cache.Valid()
    modifies cache
    ensures cache.Valid()
    ensures (final, cache.entries) ==
      old(AgentRun(nodes.services, nodes.knowledge.Lists(), cache.entries, message, history, lastTutorial))
    ensures response == Agent.Output(final, AgentHistory(message, history, final))
  {
    var simpleHistory := FlattenHistory(history);
    var newHistory;
    response, newHistory := AgentRuntime.ProcessUserQuery(nodes, cache, message, simpleHistory, lastTutorial);
    final := old(AgentRun(nodes.services, nodes.knowledge.Lists(), cache.entries, message, history, lastTutorial)).0;
  }

  /** `chat()` once the session is found: the agent answers from the
      flattened history and the turn is recorded. */
  method ChatInSession(store: Sessions.SessionStore, nodes: AgentRuntime.AgentNodes, cache: Retrieval.ResponseCache,
                       userId: string, sessionId: string, history: seq<Sessions.Message>,
                       message: string, lastTutorial: seq<Fields>)
    returns (reply: ChatReply, ghost final: Agent.StateView)
    requires cache.Valid()
    modifies store, cache
    ensures cache.Valid()
    ensures (final, cache.entries) ==
      old(AgentRun(nodes.services, nodes.knowledge.Lists(), cache.entries, message, history, lastTutorial))
    ensures reply == ChatReply(200, Agent.Output(final, AgentHistory(message, history, final)))
    ensures var full := history + TurnMessages(message, OutputContent(final), reply.body);
      && store.headers == Sessions.SavedHeaders(old(store.headers), sessionId, TurnTitle(full, message))
      && store.rows == old(store.rows)[sessionId := Sessions.RowsOf(old(store.rows), sessionId)
           + Sessions.Drop(Sessions.Turns(full), |Sessions.RowsOf(old(store.rows), sessionId)|)]
  {
    var response;
    response, final := AgentTurn(nodes, cache, message, history, lastTutorial);
    RecordTurn(store, userId, sessionId, history, message, response, final, AgentHistory(message, history, final));
    reply := ChatReply(200, response);
  }

  /** `chat()` for an authenticated `userId`: an empty session id is
      refused, an unknown session is not found, and otherwise the stored
      history is flattened for the agent, the agent's formatted response is
      returned, and the turn is saved. */
  method Chat(store: Sessions.SessionStore, nodes: AgentRuntime.AgentNodes, cache: Retrieval.ResponseCache,
              userId: string, sessionId: string, message: string, lastTutorial: seq<Fields>)
    returns (reply: ChatReply)
    requires cache.Valid()
    modifies store, cache
    ensures cache.Valid()
    ensures sessionId == "" ==>
      reply == ErrorReply(400, "session_id is required")
      && store.headers == old(store.headers) && store.rows == old(store.rows)
      && cache.entries == old(cache.entries)
    ensures sessionId != "" && Sessions.Lookup(old(store.headers), old(store.rows), userId, sessionId).None? ==>
      reply == ErrorReply(404, "Session not found")
      && store.headers == old(store.headers) && store.rows == old(store.rows)
      && cache.entries == old(cache.entries)
    ensures sessionId != "" && Sessions.Lookup(old(store.headers), old(store.rows), userId, sessionId).Some? ==>
      var stored := Sessions.RowsOf(old(store.rows), sessionId);
      var history := Sessions.Rebuild(stored);
      var (final, after) := old(AgentRun(nodes.services, nodes.knowledge.Lists(), cache.entries, message, history, lastTutorial));
      var full := history + TurnMessages(message, OutputContent(final), reply.body);
      && reply == ChatReply(200, Agent.Output(final, AgentHistory(message, history, final)))
      && cache.entries == after
      && store.headers == Sessions.SavedHeaders(old(store.headers), sessionId, TurnTitle(full, message))
      && store.rows == old(store.rows)[sessionId := stored + Sessions.Drop(Sessions.Turns(full), |stored|)]
  {
    if sessionId == "" {
      return ErrorReply(400, "session_id is required");
    }
    var session := store.GetSession(userId, sessionId);
    if session.None? {
      return ErrorReply(404, "Session not found");
    }
    ghost var final;
    reply, final := ChatInSession(store, nodes, cache, userId, sessionId, session.value.history, message, lastTutorial);
  }
}
