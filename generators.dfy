/** `DynamicSuggestionGenerator` and `GreetingGenerator`
    (react_agent_system_langgraph.py): what the language model is asked, and
    the canned answers used whenever it fails. The model is an opaque input. */
module Generators {
  import opened Wrappers
  import opened Text
  import Knowledge

  /** What the suggestion prompt carries. `query` is withheld for the
      "fallback" intent; `recentHistory` is `None` when there is no history
      ("No recent history"). */
  datatype SuggestionPrompt = SuggestionPrompt(
    romanUrduInstruction: bool,
    language: string,
    topics: seq<string>,
    query: Option<string>,
    intent: string,
    recentHistory: Option<seq<string>>)

  /** The suggestion model's answer after the JSON array was extracted and
      parsed: a list, some other JSON value, or a failure (the call raised or
      the text was not JSON). */
  datatype SuggestionOutcome = ListOf(items: seq<string>) | NotAList | Unparsable

  const MaxPromptTopics: nat := 15

  const EnglishFallbackSuggestions: seq<string> :=
    ["How to add a new region?", "Steps to create a distributor", "What can you help me with?"]
  const UrduFallbackSuggestions: seq<string> :=
    ["Naya region kaisay add karain?", "Distributor bananay ke steps kya hain?", "Aap mairi kaisay madad kar saktay hain?"]

  /** The language tag the agents hand to the generators and to `get_topics`. */
  function LanguageTag(urdu: bool): string {
    if urdu then "Roman Urdu" else "English"
  }

  /** `language.lower().replace(" ", "-")` is "roman-urdu" or "urdu". */
  predicate UrduTag(language: string) {
    var t := Lower(ReplaceChar(language, ' ', '-'));
    t == "roman-urdu" || t == "urdu"
  }

  function SuggestionPromptFor(topics: seq<string>, query: string, intent: string,
                               history: seq<string>, language: string): (p: SuggestionPrompt)
    ensures p.topics == FirstN(topics, MaxPromptTopics) && |p.topics| <= MaxPromptTopics
    ensures p.query.None? <==> intent == "fallback"
    ensures p.query.Some? ==> p.query.value == query
    ensures p.recentHistory.None? <==> history == []
    ensures p.recentHistory.Some? ==> p.recentHistory.value == LastN(history, 4) && p.recentHistory.value != []
    ensures p.romanUrduInstruction == UrduTag(language) && p.intent == intent && p.language == language
  {
    SuggestionPrompt(
      UrduTag(language),
      language,
      FirstN(topics, MaxPromptTopics),
      if intent == "fallback" then None else Some(query),
      intent,
      if history == [] then None else Some(LastN(history, 4)))
  }

  function FallbackSuggestions(language: string): (r: seq<string>)
    ensures |r| == 3
    ensures r == (if UrduTag(language) then UrduFallbackSuggestions else EnglishFallbackSuggestions)
  {
    if UrduTag(language) then UrduFallbackSuggestions else EnglishFallbackSuggestions
  }

  /** `generate(user_query, intent, conversation_history, language)` with the
      knowledge base's topic lists `kb` and the model `llm`: a non-empty list
      is returned as it is, anything else gives the canned list of the language. */
  function Suggestions(kb: Knowledge.TopicLists, llm: SuggestionPrompt -> SuggestionOutcome,
                       query: string, intent: string, history: seq<string>, language: string): (r: seq<string>)
    ensures r != []
  {
    var answer := llm(SuggestionPromptFor(Knowledge.TopicsFor(kb, language), query, intent, history, language));
    if answer.ListOf? && answer.items != [] then answer.items else FallbackSuggestions(language)
  }

  /** The greeting prompt: the question, the retrieved section title and the language tag. */
  datatype GreetingPrompt = GreetingPrompt(query: string, sectionTitle: string, language: string)

  const UrduGreeting: string := "Yeh rahe steps:"
  const EnglishGreeting: string := "Here are the steps:"

  /** `GreetingGenerator.generate`: the model's line stripped, or a canned
      line when the call fails. */
  function Greeting(llm: GreetingPrompt -> Reply, query: string, sectionTitle: string,
                    language: string): (r: string)
    ensures llm(GreetingPrompt(query, sectionTitle, language)).Reply? ==>
      r == Strip(llm(GreetingPrompt(query, sectionTitle, language)).text)
    ensures llm(GreetingPrompt(query, sectionTitle, language)).Failed? ==>
      r == (if Lower(language) == "urdu" || Lower(language) == "roman-urdu" then UrduGreeting else EnglishGreeting)
  {
    match llm(GreetingPrompt(query, sectionTitle, language))
    case Reply(text) => Strip(text)
    case Failed(_) =>
      var l := Lower(language);
      if l == "urdu" || l == "roman-urdu" then UrduGreeting else EnglishGreeting
  }

  // ---------------------------------------------------------------------

  /** The suggestions are the model's list whenever it gave a non-empty one;
      otherwise exactly the three canned ones of the language. */
  lemma SuggestionsFallBack(kb: Knowledge.TopicLists, llm: SuggestionPrompt -> SuggestionOutcome,
                            query: string, intent: string, history: seq<string>, language: string)
    ensures var answer := llm(SuggestionPromptFor(Knowledge.TopicsFor(kb, language), query, intent, history, language));
      && (answer.ListOf? && answer.items != [] ==> Suggestions(kb, llm, query, intent, history, language) == answer.items)
      && (!(answer.ListOf? && answer.items != []) ==>
            Suggestions(kb, llm, query, intent, history, language) == FallbackSuggestions(language))
  {
  }

  /** For the "fallback" intent the out-of-scope question never reaches the
      model: two such questions get the same prompt. */
  lemma FallbackIntentIgnoresQuery(topics: seq<string>, q1: string, q2: string,
                                   history: seq<string>, language: string)
    ensures SuggestionPromptFor(topics, q1, "fallback", history, language)
         == SuggestionPromptFor(topics, q2, "fallback", history, language)
  {
  }

  /** For every other intent the prompt tells two different questions apart. */
  lemma OtherIntentsCarryQuery(topics: seq<string>, q1: string, q2: string, intent: string,
                               history: seq<string>, language: string)
    requires intent != "fallback" && q1 != q2
    ensures SuggestionPromptFor(topics, q1, intent, history, language)
         != SuggestionPromptFor(topics, q2, intent, history, language)
  {
    assert SuggestionPromptFor(topics, q1, intent, history, language).query == Some(q1);
  }

  lemma LowerNoSpace(language: string)
    requires ' ' !in Lower(language)
    ensures ReplaceChar(language, ' ', '-') == language
  {
    forall i | 0 <= i < |language|
      ensures language[i] != ' '
    {
      assert Lower(language)[i] == LowerChar(language[i]);
    }
  }

  /** The two agent tags: "Roman Urdu" exactly when `urdu`. The suggestion
      generator reads it as Urdu, and the topic list it asks for is the
      Roman-Urdu one, exactly when `urdu`. */
  lemma TagSelectsLanguage(urdu: bool, kb: Knowledge.TopicLists)
    ensures UrduTag(LanguageTag(urdu)) == urdu
    ensures FallbackSuggestions(LanguageTag(urdu)) == (if urdu then UrduFallbackSuggestions else EnglishFallbackSuggestions)
    ensures Knowledge.TopicsFor(kb, LanguageTag(urdu)) == (if urdu then kb.romanUrdu else kb.english)
  {
    var tag := LanguageTag(urdu);
    var l := Lower(tag);
    if urdu {
      var t := ReplaceChar(tag, ' ', '-');
      assert t[5] == '-';
      assert Lower(t) == "roman-urdu" by {
        assert Lower(t)[0] == 'r' && Lower(t)[6] == 'u';
      }
      assert l[..5] == "roman" by {
        assert l[0] == 'r';
      }
      assert OccursAt(l, "roman", 0);
    } else {
      assert l == "english" by {
        assert l[0] == 'e';
      }
      assert ReplaceChar(tag, ' ', '-') == tag;
      MissingCharNotContained(l, "roman", 0);
      MissingCharNotContained(l, "urdu", 0);
    }
  }

  /** The greeting's canned Urdu line is only ever chosen for a language the
      suggestion generator also reads as Urdu. */
  lemma GreetingUrduOnlyForUrduTag(llm: GreetingPrompt -> Reply, query: string, sectionTitle: string,
                                   language: string)
    requires llm(GreetingPrompt(query, sectionTitle, language)).Failed?
    requires Greeting(llm, query, sectionTitle, language) == UrduGreeting
    ensures UrduTag(language)
  {
    var l := Lower(language);
    assert l == "urdu" || l == "roman-urdu";
    LowerNoSpace(language);
  }

  /** The converse fails for the agents' own tags: the greeting's canned line
      is tested against "urdu" and "roman-urdu" only, so with either tag the
      agents pass a failed call yields the English line, although the
      suggestion generator reads "Roman Urdu" as Urdu. */
  lemma GreetingFallbackWithAgentTag(llm: GreetingPrompt -> Reply, query: string, sectionTitle: string, urdu: bool)
    requires llm(GreetingPrompt(query, sectionTitle, LanguageTag(urdu))).Failed?
    ensures Greeting(llm, query, sectionTitle, LanguageTag(urdu)) == EnglishGreeting
  {
    var l := Lower(LanguageTag(urdu));
    if urdu {
      assert l[5] == ' ';
    } else {
      assert l[0] == 'e';
    }
  }
}
