/** `RequestAnalyzer.analyze` (react_agent_system_langgraph.py): the
    normalisation of the classifier's JSON answer into an intent, a confidence,
    a language, a confusion flag and a referenced step number. The classifier
    itself is an opaque input. */
module Analyzer {
  import opened Wrappers
  import opened Text

  /** A key of the classifier's JSON object: missing, present with a value of
      the expected type, or present with a value on which the normalisation
      raises (e.g. `null` where a string is lowered). */
  datatype Field<T> = Absent | Present(value: T) | WrongType

  /** The classifier's answer after `json.loads`. `Unparsable` covers a raised
      call, text that is not JSON, and JSON that is not an object.
      `confusedTruthy` is `bool(result.get("is_confused", False))`. */
  datatype RawAnalysis =
    | Unparsable
    | Parsed(intent: Field<string>, confidence: Field<real>, language: Field<string>,
             confusedTruthy: bool, stepNumber: Option<int>)

  datatype Analysis = Analysis(intent: string, confidence: real, language: string,
                               isConfused: bool, stepNumber: Option<int>)

  const ValidIntents: seq<string> :=
    ["general", "tutorial", "capabilities", "clarify", "history_recall", "summarization", "fallback"]
  const LanguageVariants: seq<string> := ["hindi", "urdu", "roman", "hinglish"]
  const RomanUrdu: string := "Roman-Urdu"
  const English: string := "English"

  /** The answer used whenever the classifier fails. */
  const SafeDefault: Analysis := Analysis("fallback", 0.3, English, false, None)

  function FieldOr<T>(f: Field<T>, default: T): T
    requires !f.WrongType?
  {
    if f.Present? then f.value else default
  }

  /** Lower-cased, and kept only when it names one of the seven intents. */
  function NormalizeIntent(raw: string): (r: string)
    ensures r in ValidIntents
    ensures Lower(raw) in ValidIntents ==> r == Lower(raw)
    ensures Lower(raw) !in ValidIntents ==> r == "fallback"
  {
    var l := Lower(raw);
    if l in ValidIntents then l else "fallback"
  }

  /** `max(0.0, min(1.0, c))`. */
  function Clamp(c: real): (r: real)
    ensures 0.0 <= r <= 1.0
    ensures 0.0 <= c <= 1.0 ==> r == c
    ensures c < 0.0 ==> r == 0.0
    ensures c > 1.0 ==> r == 1.0
  {
    var m := if c < 1.0 then c else 1.0;
    if 0.0 < m then m else 0.0
  }

  predicate MentionsUrduVariant(lowered: string) {
    exists v :: v in LanguageVariants && Contains(lowered, v)
  }

  /** Any Hindi/Urdu/Roman/Hinglish variant collapses to Roman-Urdu, all else to English. */
  function NormalizeLanguage(raw: string): (r: string)
    ensures r == RomanUrdu <==> MentionsUrduVariant(Lower(raw))
    ensures r == RomanUrdu || r == English
  {
    var l := Lower(raw);
    if Contains(l, "hindi") || Contains(l, "urdu") || Contains(l, "roman") || Contains(l, "hinglish")
    then RomanUrdu else English
  }

  predicate WellTyped(raw: RawAnalysis) {
    raw.Parsed? && !raw.intent.WrongType? && !raw.confidence.WrongType? && !raw.language.WrongType?
  }

  /** `analyze(user_query, conversation_history)` once the classifier has answered. */
  function Analyze(raw: RawAnalysis): (a: Analysis)
    ensures a.intent in ValidIntents
    ensures 0.0 <= a.confidence <= 1.0
    ensures a.language == RomanUrdu || a.language == English
    ensures !WellTyped(raw) ==> a == SafeDefault
  {
    if !WellTyped(raw) then SafeDefault
    else Analysis(NormalizeIntent(FieldOr(raw.intent, "fallback")),
                  Clamp(FieldOr(raw.confidence, 0.5)),
                  NormalizeLanguage(FieldOr(raw.language, "english")),
                  raw.confusedTruthy,
                  raw.stepNumber)
  }

  // ---------------------------------------------------------------------

  /** An intent the classifier did not give, or one outside the list, is
      "fallback"; a listed one (in any letter case) is kept. */
  lemma IntentNormalization(raw: RawAnalysis)
    requires WellTyped(raw)
    ensures raw.intent.Absent? ==> Analyze(raw).intent == "fallback"
    ensures raw.intent.Present? && Lower(raw.intent.value) in ValidIntents ==>
      Analyze(raw).intent == Lower(raw.intent.value)
    ensures raw.intent.Present? && Lower(raw.intent.value) !in ValidIntents ==>
      Analyze(raw).intent == "fallback"
  {
  }

  /** A missing confidence is 0.5; a given one is clamped into [0, 1]. */
  lemma ConfidenceNormalization(raw: RawAnalysis)
    requires WellTyped(raw)
    ensures raw.confidence.Absent? ==> Analyze(raw).confidence == 0.5
    ensures raw.confidence.Present? ==> Analyze(raw).confidence == Clamp(raw.confidence.value)
  {
  }

  /** Roman-Urdu exactly when the lowered language mentions a listed variant;
      a missing language reads as "english". */
  lemma LanguageNormalization(raw: RawAnalysis)
    requires WellTyped(raw)
    ensures raw.language.Present? ==>
      (Analyze(raw).language == RomanUrdu <==> MentionsUrduVariant(Lower(raw.language.value)))
    ensures raw.language.Absent? ==> Analyze(raw).language == English
  {
    if raw.language.Absent? {
      assert Lower("english") == "english";
      assert !Contains("english", "hindi") && !Contains("english", "urdu")
        && !Contains("english", "roman") && !Contains("english", "hinglish") by {
        EnglishMentionsNoVariant("english");
      }
    }
  }

  lemma EnglishMentionsNoVariant(s: string)
    requires s == "english"
    ensures !Contains(s, "hindi") && !Contains(s, "urdu") && !Contains(s, "roman") && !Contains(s, "hinglish")
  {
    MissingCharNotContained(s, "hindi", 3);
    MissingCharNotContained(s, "urdu", 0);
    MissingCharNotContained(s, "roman", 0);
  }

  /** The failure answer is exactly {fallback, 0.3, English, false, None}. */
  lemma FailureGivesSafeDefault()
    ensures Analyze(Unparsable) == Analysis("fallback", 0.3, "English", false, None)
  {
  }

  /** The analyzer never yields the lower-case tags "urdu" or "roman-urdu". */
  lemma NeverLowercaseUrduTag(raw: RawAnalysis)
    ensures Analyze(raw).language != "urdu" && Analyze(raw).language != "roman-urdu"
  {
  }
}
