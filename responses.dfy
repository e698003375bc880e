/** The response objects the agents build (react_agent_system_langgraph.py),
    the check `validate_response` applies to them, and
    `format_response_recursive`, which bolds quoted terms in every string of
    the final output. */
module Responses {
  import opened Wrappers
  import opened Text
  import opened Json
  import StepFormat
  import Retrieval

  /** A list of strings as a JSON list. */
  function Strs(xs: seq<string>): (j: Json)
    ensures j.JList? && |j.items| == |xs|
    ensures forall i :: 0 <= i < |xs| ==> j.items[i] == JStr(xs[i])
  {
    JList(seq(|xs|, i requires 0 <= i < |xs| => JStr(xs[i])))
  }

  /** Different suggestion lists never become the same JSON list. */
  lemma StrsInjective(xs: seq<string>, ys: seq<string>)
    ensures Strs(xs) == Strs(ys) ==> xs == ys
  {
    if Strs(xs) == Strs(ys) {
      assert |xs| == |ys|;
      forall i | 0 <= i < |xs|
        ensures xs[i] == ys[i]
      {
        assert Strs(xs).items[i] == Strs(ys).items[i];
      }
    }
  }

  /** An optional string, `None` as JSON null. */
  function OptStr(o: Option<string>): Json {
    if o.Some? then JStr(o.value) else JNull
  }

  // ---------------------------------------------------------------------
  // Canned texts.

  const GeneralHello: string := "Hello! How can I help you?"
  const GeneralHelloUrdu: string := "Hi! Main aapki kaisay madad kar sakti hoon."
  const FallbackContent: string := "How can I help you today?"
  const ClarifyQuestion: string := "Which step would you like me to explain?"
  const ClarifyError: string := "Please ask for a tutorial first."
  const NoHistory: string := "We haven't had much of a conversation yet!"
  const NoHistoryUrdu: string := "Hamari abhi koi guftagu nahi hui."
  const SummaryFailed: string := "Summary generation failed."
  const RecallFailed: string := "I'm sorry, I couldn't recall that correctly."

  // ---------------------------------------------------------------------
  // Response objects, keys in the order the source writes them.

  function GeneralResponse(content: string, suggestions: seq<string>, urdu: bool): Fields {
    [("type", JStr("general")), ("content", JStr(content)),
     ("suggested_actions", Strs(suggestions)), ("is_urdu", JBool(urdu))]
  }

  /** The capabilities card; the static feature list is not part of this model. */
  function CapabilitiesResponse(suggestions: seq<string>, urdu: bool): Fields {
    if urdu then
      [("type", JStr("capabilities")), ("title", JStr("Hi! Main hoon MIRA")),
       ("content", JStr("Main aapki Management Portal ka har kaam asaan bananay mein madad kar sakti hoon.")),
       ("footer_cta", JStr("Aap kya seekhna chahte hain?")),
       ("suggested_actions", Strs(suggestions)), ("is_urdu", JBool(urdu))]
    else
      [("type", JStr("capabilities")), ("title", JStr("I'm MIRA, Your Portal Guide")),
       ("content", JStr("I'm here to make managing your portal as simple as having a conversation.")),
       ("footer_cta", JStr("What would you like to learn today?")),
       ("suggested_actions", Strs(suggestions)), ("is_urdu", JBool(urdu))]
  }

  /** One renumbered tutorial step: `step_number` counts from 1. */
  function StepEntry(number: nat, step: Retrieval.Step): Json {
    var image := if step.image.Some? && step.image.value != "" then JStr(step.image.value) else JNull;
    JObject([("step_number", JInt(number)), ("text", OptStr(step.text)), ("image", image)])
  }

  /** The renumbered steps of a tutorial. */
  function StepEntries(steps: seq<Retrieval.Step>): (r: seq<Json>)
    ensures |r| == |steps|
  {
    seq(|steps|, i requires 0 <= i < |steps| => StepEntry(i + 1, steps[i]))
  }

  function TutorialResponse(intro: string, entries: seq<Json>, urdu: bool, suggestions: seq<string>): Fields {
    [("type", JStr("tutorial")), ("content", JStr(intro)), ("steps", JList(entries))]
      + TutorialClosing(|entries|, urdu, suggestions)
  }

  /** The keys after "steps": summary, tip, thanks, language flag, suggestions. */
  function TutorialClosing(count: nat, urdu: bool, suggestions: seq<string>): Fields {
    var n := NatToString(count);
    [("summary", JStr(if urdu then "Main pur-umeed hoon ke in " + n + " steps se aapki madad hui hogi."
                      else "I hope these " + n + " steps help you achieve your goal.")),
     ("pro_tip", JStr(if urdu then "Steps ko carefully follow karain." else "Follow each step carefully.")),
     ("completion_message", JStr(if urdu then "Shukriya!" else "Thank you!")),
     ("is_urdu", JBool(urdu)), ("suggested_actions", Strs(suggestions))]
  }

  const NoRelevantOpening: string := "It looks like the topic **'"
  const NoRelevantClosing: string :=
    "'** is not related to this system. If you have a general question, feel free to ask! However, I cannot provide a tutorial for this specific topic as it is not part of the system documentation."

  /** The "not part of the system" text, with the query quoted and bolded. */
  function NoRelevantContentText(query: string): (r: string)
    ensures r != []
  {
    assert |NoRelevantOpening| > 0;
    NoRelevantOpening + query + NoRelevantClosing
  }

  function NoRelevantResponse(query: string, suggestions: seq<string>): Fields {
    [("type", JStr("no_relevant_content")), ("content", JStr(NoRelevantContentText(query))),
     ("suggested_actions", Strs(suggestions))]
  }

  /** Note the key "suggestions", where the other responses use "suggested_actions". */
  function TutorialFallbackResponse(query: string, suggestions: seq<string>): Fields {
    [("type", JStr("tutorial_fallback")), ("content", JStr("No steps found for '" + query + "'.")),
     ("suggestions", Strs(suggestions))]
  }

  /** The "clarified_step" object of a clarification. */
  function ClarifyDetail(number: nat, original: Json, clarified: Json, image: Json): Fields {
    [("step_number", JInt(number)), ("original", original), ("clarified", clarified), ("image", image)]
  }

  function ClarifyResponse(number: nat, original: Json, clarified: Json, image: Json,
                           suggestions: seq<string>, urdu: bool): Fields {
    [("type", JStr("tutorial_clarify")),
     ("content", JStr("Step " + NatToString(number) + " clarification:")),
     ("clarified_step", JObject(ClarifyDetail(number, original, clarified, image))),
     ("suggested_actions", Strs(suggestions)), ("is_urdu", JBool(urdu))]
  }

  function ClarifyErrorResponse(suggestions: seq<string>): Fields {
    [("type", JStr("tutorial_clarify_error")), ("content", JStr(ClarifyError)),
     ("suggested_actions", Strs(suggestions))]
  }

  function ClarifyQuestionResponse(suggestions: seq<string>): Fields {
    [("type", JStr("clarify_question")), ("content", JStr(ClarifyQuestion)),
     ("suggested_actions", Strs(suggestions))]
  }

  function NoHistoryResponse(urdu: bool): Fields {
    [("type", JStr("general")), ("content", JStr(if urdu then NoHistoryUrdu else NoHistory))]
  }

  function HistoryResponse(content: string, urdu: bool): Fields {
    [("type", JStr("general")), ("content", JStr(content)), ("is_urdu", JBool(urdu))]
  }

  function FallbackResponse(suggestions: seq<string>): Fields {
    [("type", JStr("fallback")), ("content", JStr(FallbackContent)), ("suggested_actions", Strs(suggestions))]
  }

  // ---------------------------------------------------------------------
  // validate_response.

  /** A non-empty response is valid when it has a "type" key and truthy "content". */
  predicate ResponseValid(response: Fields) {
    response != [] && HasKey(response, "type") && Truthy(GetOrNull(response, "content"))
  }

  /** The response type, when "type" holds a string. */
  function TypeOf(response: Fields): Option<string> {
    GetStr(response, "type")
  }

  /** Looking a key up in a response that starts with "type" and "content". */
  lemma LeadingKeys(fs: Fields, t: string, c: Json)
    requires |fs| >= 2 && fs[0] == ("type", JStr(t)) && fs[1] == ("content", c)
    ensures HasKey(fs, "type") && TypeOf(fs) == Some(t)
    ensures GetOrNull(fs, "content") == c
  {
    assert "type"[0] != "content"[0];
    assert Get(fs, "content") == Get(fs[1..], "content");
    assert fs[1..][0] == ("content", c);
  }

  lemma LeadingValid(fs: Fields, t: string, content: string)
    requires |fs| >= 2 && fs[0] == ("type", JStr(t)) && fs[1] == ("content", JStr(content))
    ensures ResponseValid(fs) <==> content != ""
    ensures TypeOf(fs) == Some(t)
  {
    LeadingKeys(fs, t, JStr(content));
  }

  /** The fallback and the two clarification answers without a step validate,
      and their types are the ones the source writes. */
  lemma CannedResponsesValid(suggestions: seq<string>)
    ensures ResponseValid(FallbackResponse(suggestions)) && TypeOf(FallbackResponse(suggestions)) == Some("fallback")
    ensures ResponseValid(ClarifyErrorResponse(suggestions))
      && TypeOf(ClarifyErrorResponse(suggestions)) == Some("tutorial_clarify_error")
    ensures ResponseValid(ClarifyQuestionResponse(suggestions))
      && TypeOf(ClarifyQuestionResponse(suggestions)) == Some("clarify_question")
  {
    LeadingValid(FallbackResponse(suggestions), "fallback", FallbackContent);
    LeadingValid(ClarifyErrorResponse(suggestions), "tutorial_clarify_error", ClarifyError);
    LeadingValid(ClarifyQuestionResponse(suggestions), "clarify_question", ClarifyQuestion);
  }

  /** The answers for a missing history or an unrelated topic validate too. */
  lemma NothingFoundResponsesValid(query: string, suggestions: seq<string>, urdu: bool)
    ensures ResponseValid(NoHistoryResponse(urdu)) && TypeOf(NoHistoryResponse(urdu)) == Some("general")
    ensures ResponseValid(NoRelevantResponse(query, suggestions))
      && TypeOf(NoRelevantResponse(query, suggestions)) == Some("no_relevant_content")
  {
    LeadingValid(NoHistoryResponse(urdu), "general", if urdu then NoHistoryUrdu else NoHistory);
    LeadingValid(NoRelevantResponse(query, suggestions), "no_relevant_content", NoRelevantContentText(query));
  }

  /** A response whose content is the model's text validates exactly when that text is non-empty. */
  lemma ModelTextResponsesValid(content: string, suggestions: seq<string>, urdu: bool)
    ensures ResponseValid(GeneralResponse(content, suggestions, urdu)) <==> content != ""
    ensures ResponseValid(HistoryResponse(content, urdu)) <==> content != ""
  {
    LeadingValid(GeneralResponse(content, suggestions, urdu), "general", content);
    LeadingValid(HistoryResponse(content, urdu), "general", content);
  }

  /** A clarification names its type and carries the step object. */
  lemma ClarifyResponseKeys(number: nat, original: Json, clarified: Json, image: Json,
                            suggestions: seq<string>, urdu: bool)
    ensures var r := ClarifyResponse(number, original, clarified, image, suggestions, urdu);
      && TypeOf(r) == Some("tutorial_clarify")
      && GetOrNull(r, "clarified_step") == JObject(ClarifyDetail(number, original, clarified, image))
  {
    var r := ClarifyResponse(number, original, clarified, image, suggestions, urdu);
    LeadingKeys(r, "tutorial_clarify", r[1].1);
    GetAt(r, 2, "clarified_step");
  }

  /** The step object carries the original and the clarified text. */
  lemma ClarifyDetailKeys(number: nat, original: Json, clarified: Json, image: Json)
    ensures var d := ClarifyDetail(number, original, clarified, image);
      GetOrNull(d, "original") == original && GetOrNull(d, "clarified") == clarified
  {
    var d := ClarifyDetail(number, original, clarified, image);
    GetAt(d, 1, "original");
    GetAt(d, 2, "clarified");
  }

  /** A tutorial answer carries its renumbered steps under "steps". */
  lemma TutorialResponseKeys(intro: string, entries: seq<Json>, urdu: bool, suggestions: seq<string>)
    ensures var r := TutorialResponse(intro, entries, urdu, suggestions);
      TypeOf(r) == Some("tutorial") && GetOrNull(r, "steps") == JList(entries)
  {
    var head: Fields := [("type", JStr("tutorial")), ("content", JStr(intro)), ("steps", JList(entries))];
    var tail := TutorialClosing(|entries|, urdu, suggestions);
    GetAt(head, 0, "type");
    GetAt(head, 2, "steps");
    GetPrefix(head, tail, "type");
    GetPrefix(head, tail, "steps");
  }

  /** The tutorial fallback validates and keeps its suggestions under "suggestions" only. */
  lemma TutorialFallbackKeys(query: string, suggestions: seq<string>)
    ensures var r := TutorialFallbackResponse(query, suggestions);
      && ResponseValid(r) && TypeOf(r) == Some("tutorial_fallback")
      && GetOrNull(r, "suggestions") == Strs(suggestions)
      && !HasKey(r, "suggested_actions")
  {
    var r := TutorialFallbackResponse(query, suggestions);
    var tf := "No steps found for '" + query + "'.";
    assert tf[0] == 'N';
    LeadingValid(r, "tutorial_fallback", tf);
    GetAt(r, 2, "suggestions");
    assert forall i :: 0 <= i < |r| ==> |r[i].0| != |"suggested_actions"|;
  }

  // ---------------------------------------------------------------------
  // format_response_recursive.

  /** Every string, however deeply nested, passes through `format_step_text`;
      lists keep their length, objects their keys, other values are kept. */
  function FormatValue(j: Json): Json
    decreases j
  {
    match j
    case JStr(s) => JStr(StepFormat.FormatStepText(s))
    case JList(items) => JList(seq(|items|, i requires 0 <= i < |items| => FormatValue(items[i])))
    case JObject(fields) => JObject(FormatFields(fields, j))
    case _ => j
  }

  function FormatFields(fields: Fields, ghost parent: Json): (r: Fields)
    requires parent.JObject? && parent.fields == fields
    ensures |r| == |fields|
    ensures forall i :: 0 <= i < |fields| ==> r[i].0 == fields[i].0
    decreases parent, 0
  {
    seq(|fields|, i requires 0 <= i < |fields| => (fields[i].0, FormatValue(FieldValue(fields, i, parent))))
  }

  function FieldValue(fields: Fields, i: nat, ghost parent: Json): (v: Json)
    requires i < |fields| && parent.JObject? && parent.fields == fields
    ensures v < parent
  {
    assert fields[i] in parent.fields;
    fields[i].1
  }

  /** Formatting an object formats the value found under each key. */
  lemma FormatGet(fields: Fields, key: string)
    ensures Get(FormatValue(JObject(fields)).fields, key) ==
      if Get(fields, key).Some? then Some(FormatValue(Get(fields, key).value)) else None
  {
    var r := FormatValue(JObject(fields)).fields;
    if HasKey(fields, key) {
      var i := FirstWithKey(fields, key);
      GetAt(fields, i, key);
      GetAt(r, i, key);
    }
  }

  /** Formatting turns a string into a string and anything else into
      something that is not one. */
  lemma FormatKeepsKind(j: Json)
    ensures FormatValue(j).JStr? <==> j.JStr?
    ensures j.JStr? ==> FormatValue(j) == JStr(StepFormat.FormatStepText(j.s))
  {
  }

  /** The index of the first entry with `key`. */
  lemma {:induction false} FirstWithKey(fs: Fields, key: string) returns (i: nat)
    requires HasKey(fs, key)
    ensures i < |fs| && fs[i].0 == key
    ensures forall k :: 0 <= k < i ==> fs[k].0 != key
  {
    if fs[0].0 == key {
      i := 0;
    } else {
      HasKeyTail(fs, key);
      var j := FirstWithKey(fs[1..], key);
      i := j + 1;
    }
  }

  /** What a reader sees of a value: each string reduced to its text without
      quotes and asterisks. */
  function Seen(j: Json): Json
    decreases j
  {
    match j
    case JStr(s) => JStr(StepFormat.Visible(s))
    case JList(items) => JList(seq(|items|, i requires 0 <= i < |items| => Seen(items[i])))
    case JObject(fields) => JObject(SeenFields(fields, j))
    case _ => j
  }

  function SeenFields(fields: Fields, ghost parent: Json): (r: Fields)
    requires parent.JObject? && parent.fields == fields
    decreases parent, 0
  {
    seq(|fields|, i requires 0 <= i < |fields| => (fields[i].0, Seen(FieldValue(fields, i, parent))))
  }

  /** Formatting the whole output changes no visible text anywhere in it. */
  lemma {:induction false} FormatValueKeepsText(j: Json)
    ensures Seen(FormatValue(j)) == Seen(j)
    decreases j
  {
    match j
    case JStr(s) =>
      StepFormat.FormatPreservesVisible(s);
    case JList(items) =>
      forall i | 0 <= i < |items| ensures Seen(FormatValue(items[i])) == Seen(items[i]) {
        FormatValueKeepsText(items[i]);
      }
      assert Seen(FormatValue(j)).items == Seen(j).items;
    case JObject(fields) =>
      var fj := FormatValue(j);
      assert fj.fields == FormatFields(fields, j);
      forall i | 0 <= i < |fields|
        ensures SeenFields(fj.fields, fj)[i] == SeenFields(fields, j)[i]
      {
        var v := FieldValue(fields, i, j);
        FormatValueKeepsText(v);
        assert FieldValue(fj.fields, i, fj) == FormatValue(v);
      }
      assert SeenFields(fj.fields, fj) == SeenFields(fields, j);
    case _ =>
  }

  /** Formatting keeps an object's keys, in order, and hence its "type". */
  lemma FormatValueKeepsKeys(fields: Fields)
    ensures FormatValue(JObject(fields)).JObject?
    ensures |FormatValue(JObject(fields)).fields| == |fields|
    ensures forall i :: 0 <= i < |fields| ==> FormatValue(JObject(fields)).fields[i].0 == fields[i].0
  {
  }
}
