/** The retrieval resolver of chat.py: `get_bot_response` with its response
    cache, its fast path on a very close top match and its slow path where the
    completion service picks one candidate title, and `refresh_components`. */
module Retrieval {
  import opened Wrappers
  import opened Text
  import opened Seqs
  import StepFormat

  /** One item of a stored section's step list, as `json.loads(steps_json)`
      yields it: an object with its `description` and `snapshot` (each a
      string, or absent), or an item reading which raises — it is not an
      object, or its `snapshot` is truthy but not a string. `reason` is the
      text of the error raised. */
  datatype RawStep = RawStep(description: Option<string>, snapshot: Option<string>) | Malformed(reason: string)

  /** The `steps_json` metadata entry: absent or empty, not valid JSON, or a step list. */
  datatype StepsPayload = NoPayload | Unparsable(reason: string) | Payload(steps: seq<RawStep>)

  /** A search hit's metadata; `sectionTitle` is `None` when the key is absent. */
  datatype DocMeta = DocMeta(sectionTitle: Option<string>, steps: StepsPayload)

  /** One search result: a document's metadata and its distance (lower is closer). */
  datatype Hit = Hit(meta: DocMeta, distance: real)

  /** `similarity_search_with_score(query, k=5)`: the hits, or the error it raised. */
  datatype SearchOutcome = Hits(hits: seq<Hit>) | SearchFailed(reason: string)

  /** An expanded step; either part may be `None`. */
  datatype Step = Step(text: Option<string>, image: Option<string>)

  /** The result of `get_bot_response`. The two error kinds both have type
      "error": nothing found by the search, or an exception with its message. */
  datatype BotResponse =
    | Tutorial(steps: seq<Step>, sectionTitle: string)
    | NoRelevantContent
    | NothingFound
    | Error(reason: string)

  const FastPathThreshold: real := 0.15
  const NoneTitle: string := "NONE"
  const NotFoundContent: string := "Sorry, I couldn't find relevant steps for your query."
  const ErrorPrefix: string := "Sorry, I encountered an error: "
  const TutorialContent: string := "Sure! Here is the step by step answer to your query."
  const NoRelevantText: string := "I'm sorry, I couldn't find any information about that in the system."

  /** The `content` field each kind of result carries. */
  function Content(r: BotResponse): (c: string)
    ensures c != []
  {
    match r
    case Tutorial(_, _) => TutorialContent
    case NoRelevantContent => NoRelevantText
    case NothingFound => NotFoundContent
    case Error(reason) => ErrorPrefix + reason
  }

  /** The results whose `type` is "error". */
  predicate IsError(r: BotResponse) {
    r.NothingFound? || r.Error?
  }

  // ---------------------------------------------------------------------
  // Specification of one resolution.

  /** The section titles of the hits that have a non-empty one, in order. */
  function TruthyTitles(hits: seq<Hit>): (r: seq<string>)
  {
    if hits == [] then []
    else
      var rest := TruthyTitles(hits[..|hits| - 1]);
      var last := hits[|hits| - 1].meta.sectionTitle;
      if last.Some? && last.value != [] then rest + [last.value] else rest
  }

  /** Index of the first hit whose section title is exactly `t`. */
  function FirstWithTitle(hits: seq<Hit>, t: string): (r: Option<nat>)
    ensures r.Some? ==> r.value < |hits| && hits[r.value].meta.sectionTitle == Some(t)
    ensures r.Some? ==> forall k :: 0 <= k < r.value ==> hits[k].meta.sectionTitle != Some(t)
    ensures r.None? ==> forall k :: 0 <= k < |hits| ==> hits[k].meta.sectionTitle != Some(t)
  {
    if hits == [] then None
    else if hits[0].meta.sectionTitle == Some(t) then Some(0)
    else match FirstWithTitle(hits[1..], t)
      case None => None
      case Some(k) => Some(k + 1)
  }

  /** The reply of the selector with whitespace, then `"`, then `'` stripped. */
  function SelectedTitle(text: string): string {
    StripChar(StripChar(Strip(text), '"'), '\'')
  }

  /** A relative image path gets a leading slash; `None` and `""` stay as they are. */
  function NormalizeImage(p: Option<string>): (r: Option<string>)
    ensures r.None? <==> p.None?
    ensures p.Some? && p.value != [] ==> r.value != [] && r.value[0] == '/'
    ensures p.Some? && p.value != [] && p.value[0] == '/' ==> r == p
    ensures p == Some([]) ==> r == p
  {
    match p
    case Some(s) => if s != [] && s[0] != '/' then Some("/" + TrimStart(s, c => c == '/')) else p
    case None => None
  }

  function ExpandStep(raw: RawStep): Step
    requires raw.RawStep?
  {
    Step(StepFormat.FormatOptText(raw.description), NormalizeImage(raw.snapshot))
  }

  /** Expanding a whole step list: every step, or the error of the first item that raises. */
  datatype Expansion = Expanded(steps: seq<Step>) | Raised(reason: string)

  function ExpandAll(raws: seq<RawStep>): (r: Expansion)
    ensures r.Expanded? <==> forall i :: 0 <= i < |raws| ==> raws[i].RawStep?
    ensures r.Expanded? ==>
      |r.steps| == |raws| && forall i :: 0 <= i < |raws| ==> r.steps[i] == ExpandStep(raws[i])
    ensures r.Raised? ==>
      exists i :: 0 <= i < |raws| && raws[i] == Malformed(r.reason)
        && forall j :: 0 <= j < i ==> raws[j].RawStep?
  {
    if raws == [] then Expanded([])
    else
      var init := raws[..|raws| - 1];
      var last := raws[|raws| - 1];
      assert forall i :: 0 <= i < |init| ==> init[i] == raws[i];
      match ExpandAll(init)
      case Raised(reason) => Raised(reason)
      case Expanded(steps) =>
        match last
        case Malformed(reason) => Raised(reason)
        case RawStep(_, _) => Expanded(steps + [ExpandStep(last)])
  }

  /** The first item that raises decides the expansion. */
  lemma FirstMalformedRaises(raws: seq<RawStep>, k: nat)
    requires k < |raws| && raws[k].Malformed? && forall j :: 0 <= j < k ==> raws[j].RawStep?
    ensures ExpandAll(raws) == Raised(raws[k].reason)
  {
    var e := ExpandAll(raws);
    var i :| 0 <= i < |raws| && raws[i] == Malformed(e.reason) && forall j :: 0 <= j < i ==> raws[j].RawStep?;
    assert i == k;
  }

  /** With no item raising, the expansion is the list of expanded steps. */
  lemma AllExpanded(raws: seq<RawStep>, steps: seq<Step>)
    requires |steps| == |raws|
    requires forall i :: 0 <= i < |raws| ==> raws[i].RawStep? && steps[i] == ExpandStep(raws[i])
    ensures ExpandAll(raws) == Expanded(steps)
  {
    assert ExpandAll(raws).steps == steps;
  }

  /** The section title a tutorial result carries: `metadata.get("section_title", "")`. */
  function TitleOrEmpty(title: Option<string>): string {
    if title.Some? then title.value else ""
  }

  /** Which hit the resolver settled on, if any. */
  datatype Choice = Picked(index: nat, title: Option<string>) | Unmatched | SelectorFailed(reason: string)

  predicate FastPath(hits: seq<Hit>) {
    hits != [] && hits[0].distance < FastPathThreshold
  }

  /** The fast path picks the top hit; the slow path asks the selector. */
  function Choose(query: string, hits: seq<Hit>, select: (string, seq<string>) -> Reply): (c: Choice)
    requires hits != []
    ensures c.Picked? ==> c.index < |hits| && c.title == hits[c.index].meta.sectionTitle
  {
    if FastPath(hits) then Picked(0, hits[0].meta.sectionTitle)
    else SlowChoice(hits, select(query, Dedup(TruthyTitles(hits))))
  }

  /** The slow path once the selector has replied. */
  function SlowChoice(hits: seq<Hit>, reply: Reply): (c: Choice)
    ensures c.Picked? ==> c.index < |hits| && c.title == hits[c.index].meta.sectionTitle
  {
    match reply
    case Failed(reason) => SelectorFailed(reason)
    case Reply(text) =>
      var t := SelectedTitle(text);
      if t == NoneTitle then Unmatched
      else match FirstWithTitle(hits, t)
        case None => Unmatched
        case Some(k) => Picked(k, Some(t))
  }

  /** The result once a choice is made: the chosen section's steps expanded. */
  function FromChoice(hits: seq<Hit>, c: Choice): BotResponse
    requires c.Picked? ==> c.index < |hits|
  {
    match c
    case SelectorFailed(reason) => Error(reason)
    case Unmatched => NoRelevantContent
    case Picked(k, title) =>
      if title == Some(NoneTitle) then NoRelevantContent
      else match hits[k].meta.steps
        case Unparsable(reason) => Error(reason)
        case NoPayload => Tutorial([], TitleOrEmpty(hits[k].meta.sectionTitle))
        case Payload(raws) =>
          match ExpandAll(raws)
          case Raised(reason) => Error(reason)
          case Expanded(steps) => Tutorial(steps, TitleOrEmpty(hits[k].meta.sectionTitle))
  }

  /** What `get_bot_response` answers when the query is not cached. */
  function Resolve(query: string, outcome: SearchOutcome, select: (string, seq<string>) -> Reply): BotResponse {
    match outcome
    case SearchFailed(reason) => Error(reason)
    case Hits(hits) =>
      if hits == [] then NothingFound
      else FromChoice(hits, Choose(query, hits, select))
  }

  /** Whether the selector is consulted for this search outcome. */
  predicate SelectorCalled(outcome: SearchOutcome) {
    outcome.Hits? && outcome.hits != [] && !FastPath(outcome.hits)
  }

  /** Everything but errors is remembered. */
  predicate Cacheable(r: BotResponse) {
    !IsError(r)
  }

  // ---------------------------------------------------------------------
  // Properties of one resolution.

  /** A top hit closer than 0.15 is taken without asking the selector: the
      result does not depend on the selector at all. */
  lemma FastPathIgnoresSelector(query: string, hits: seq<Hit>,
                                s1: (string, seq<string>) -> Reply, s2: (string, seq<string>) -> Reply)
    requires FastPath(hits)
    ensures !SelectorCalled(Hits(hits))
    ensures Resolve(query, Hits(hits), s1) == Resolve(query, Hits(hits), s2)
    ensures Choose(query, hits, s1) == Picked(0, hits[0].meta.sectionTitle)
  {
  }

  /** On the slow path the selector is shown each non-empty candidate title
      once, in order of first appearance among the hits. */
  lemma SlowPathCandidates(hits: seq<Hit>)
    ensures Distinct(Dedup(TruthyTitles(hits)))
    ensures forall t :: t in Dedup(TruthyTitles(hits)) <==> t in TruthyTitles(hits)
    ensures forall i, j :: 0 <= i < j < |Dedup(TruthyTitles(hits))| ==>
      FirstIndex(TruthyTitles(hits), Dedup(TruthyTitles(hits))[i])
        < FirstIndex(TruthyTitles(hits), Dedup(TruthyTitles(hits))[j])
  {
    DedupFirstOccurrenceOrder(TruthyTitles(hits));
  }

  /** The titles offered to the selector are exactly the non-empty titles of the hits. */
  lemma {:induction false} TruthyTitlesAreHitTitles(hits: seq<Hit>, t: string)
    ensures t in TruthyTitles(hits) <==>
      t != [] && exists k :: 0 <= k < |hits| && hits[k].meta.sectionTitle == Some(t)
  {
    if hits != [] {
      var p := hits[..|hits| - 1];
      TruthyTitlesAreHitTitles(p, t);
      assert forall k :: 0 <= k < |p| ==> p[k] == hits[k];
      if t != [] && hits[|hits| - 1].meta.sectionTitle != Some(t) {
        if exists k :: 0 <= k < |hits| && hits[k].meta.sectionTitle == Some(t) {
          var k :| 0 <= k < |hits| && hits[k].meta.sectionTitle == Some(t);
          assert k < |p| && p[k].meta.sectionTitle == Some(t);
        }
      }
    }
  }

  /** Off the fast path the choice is the selector's, asked about the candidate titles. */
  lemma SlowPathAsksSelector(query: string, hits: seq<Hit>, select: (string, seq<string>) -> Reply)
    requires hits != [] && !FastPath(hits)
    ensures SelectorCalled(Hits(hits))
    ensures Choose(query, hits, select) == SlowChoice(hits, select(query, Dedup(TruthyTitles(hits))))
  {
  }

  /** The selector's answer, trimmed, is matched to the FIRST hit with exactly
      that title; "NONE" or a title no hit carries means no match, which
      resolves to no relevant content. */
  lemma SlowPathMatchesExactTitle(hits: seq<Hit>, text: string)
    ensures var t := SelectedTitle(text);
      var c := SlowChoice(hits, Reply(text));
      && (c == Unmatched <==> t == NoneTitle || FirstWithTitle(hits, t).None?)
      && (c != Unmatched ==> c == Picked(FirstWithTitle(hits, t).value, Some(t)))
      && (c == Unmatched ==> FromChoice(hits, c) == NoRelevantContent)
  {
  }

  /** A selector error, a search error and an empty search all give an
      "error" result, and errors are never cached. */
  lemma ErrorsAreNotCached(query: string, outcome: SearchOutcome, select: (string, seq<string>) -> Reply)
    requires outcome == Hits([]) || outcome.SearchFailed?
      || (outcome.Hits? && SelectorCalled(outcome) && select(query, Dedup(TruthyTitles(outcome.hits))).Failed?)
    ensures IsError(Resolve(query, outcome, select))
    ensures !Cacheable(Resolve(query, outcome, select))
    ensures outcome == Hits([]) ==> Content(Resolve(query, outcome, select)) == NotFoundContent
    ensures outcome.SearchFailed? ==> Content(Resolve(query, outcome, select)) == ErrorPrefix + outcome.reason
  {
  }

  /** Every step of a tutorial result comes from the chosen hit: its text has
      been through `format_step_text` and its image path, when non-empty,
      starts with '/'. The result carries the hit's section title, or "" when
      its metadata has none. */
  lemma TutorialStepsExpanded(query: string, hits: seq<Hit>, select: (string, seq<string>) -> Reply)
    requires hits != []
    requires Resolve(query, Hits(hits), select).Tutorial?
    ensures var c := Choose(query, hits, select);
      var r := Resolve(query, Hits(hits), select);
      && c.Picked? && c.title != Some(NoneTitle)
      && (hits[c.index].meta.sectionTitle.Some? ==> r.sectionTitle == hits[c.index].meta.sectionTitle.value)
      && (hits[c.index].meta.sectionTitle.None? ==> r.sectionTitle == "")
      && (hits[c.index].meta.steps.NoPayload? ==> r.steps == [])
      && (hits[c.index].meta.steps.Payload? ==>
            var raws := hits[c.index].meta.steps.steps;
            |r.steps| == |raws|
            && forall i :: 0 <= i < |raws| ==>
                 && raws[i].RawStep?
                 && r.steps[i].text == StepFormat.FormatOptText(raws[i].description)
                 && (r.steps[i].image.Some? && r.steps[i].image.value != [] ==> r.steps[i].image.value[0] == '/')
                 && (r.steps[i].image.None? <==> raws[i].snapshot.None?))
  {
  }

  /** A step item that raises while the chosen section is expanded makes the
      whole answer an error carrying the message of the first such item; it is
      not cached. */
  lemma MalformedStepIsError(query: string, hits: seq<Hit>, select: (string, seq<string>) -> Reply, k: nat)
    requires hits != []
    requires var c := Choose(query, hits, select);
      c.Picked? && c.title != Some(NoneTitle) && hits[c.index].meta.steps.Payload?
    requires var raws := hits[Choose(query, hits, select).index].meta.steps.steps;
      k < |raws| && raws[k].Malformed? && forall j :: 0 <= j < k ==> raws[j].RawStep?
    ensures var raws := hits[Choose(query, hits, select).index].meta.steps.steps;
      Resolve(query, Hits(hits), select) == Error(raws[k].reason)
    ensures !Cacheable(Resolve(query, Hits(hits), select))
  {
    FirstMalformedRaises(hits[Choose(query, hits, select).index].meta.steps.steps, k);
  }

  // ---------------------------------------------------------------------
  // The loops of get_bot_response.

  /** One more hit read: its title is appended unless it is empty or already listed. */
  lemma CandidateStep(hits: seq<Hit>, k: nat)
    requires k < |hits|
    ensures var title := hits[k].meta.sectionTitle;
      var before := Dedup(TruthyTitles(hits[..k]));
      Dedup(TruthyTitles(hits[..k + 1]))
        == if title.Some? && title.value != [] && title.value !in before then before + [title.value] else before
  {
    assert hits[..k + 1][..k] == hits[..k];
    var title := hits[k].meta.sectionTitle;
    if title.Some? && title.value != [] {
      DedupSnoc(TruthyTitles(hits[..k]), title.value);
    }
  }

  /** `potential_sections`: the non-empty titles of the hits, repeats dropped. */
  method CandidateTitles(hits: seq<Hit>) returns (titles: seq<string>)
    ensures titles == Dedup(TruthyTitles(hits))
  {
    titles := [];
    var seen: set<string> := {};
    var k := 0;
    while k < |hits|
      invariant 0 <= k <= |hits|
      invariant titles == Dedup(TruthyTitles(hits[..k]))
      invariant forall t :: t in seen <==> t in titles
    {
      CandidateStep(hits, k);
      var title := hits[k].meta.sectionTitle;
      if title.Some? && title.value != [] && title.value !in seen {
        titles := titles + [title.value];
        seen := seen + {title.value};
      }
      k := k + 1;
    }
    assert hits[..k] == hits;
  }

  /** The exact-match loop: the first hit whose title equals the selected one. */
  method MatchTitle(hits: seq<Hit>, t: string) returns (idx: Option<nat>)
    ensures idx.Some? ==> idx.value < |hits| && hits[idx.value].meta.sectionTitle == Some(t)
    ensures idx.Some? ==> forall k :: 0 <= k < idx.value ==> hits[k].meta.sectionTitle != Some(t)
    ensures idx.None? ==> forall k :: 0 <= k < |hits| ==> hits[k].meta.sectionTitle != Some(t)
  {
    idx := None;
    var k := 0;
    while k < |hits|
      invariant 0 <= k <= |hits|
      invariant forall m :: 0 <= m < k ==> hits[m].meta.sectionTitle != Some(t)
    {
      if hits[k].meta.sectionTitle == Some(t) {
        idx := Some(k);
        return;
      }
      k := k + 1;
    }
  }

  /** `all_steps`: every stored step with its text formatted and image path
      normalised, or the error of the first item that raises. */
  method ExpandSteps(raws: seq<RawStep>) returns (r: Expansion)
    ensures r == ExpandAll(raws)
  {
    var steps := [];
    var k := 0;
    while k < |raws|
      invariant 0 <= k <= |raws|
      invariant |steps| == k
      invariant forall i :: 0 <= i < k ==> raws[i].RawStep? && steps[i] == ExpandStep(raws[i])
    {
      if raws[k].Malformed? {
        FirstMalformedRaises(raws, k);
        return Raised(raws[k].reason);
      }
      var text := StepFormat.FormatOptText(raws[k].description);
      var image := raws[k].snapshot;
      if image.Some? && image.value != [] && image.value[0] != '/' {
        image := Some("/" + TrimStart(image.value, c => c == '/'));
      }
      steps := steps + [Step(text, image)];
      k := k + 1;
    }
    AllExpanded(raws, steps);
    r := Expanded(steps);
  }

  /** Fast path or slow path: which hit `get_bot_response` settles on, and
      whether it had to ask the selector. */
  method ChooseHit(query: string, hits: seq<Hit>, select: (string, seq<string>) -> Reply)
    returns (c: Choice, selectorCalled: bool)
    requires hits != []
    ensures c == Choose(query, hits, select)
    ensures selectorCalled == !FastPath(hits)
  {
    if hits[0].distance < FastPathThreshold {
      return Picked(0, hits[0].meta.sectionTitle), false;
    }
    var candidates := CandidateTitles(hits);
    selectorCalled := true;
    var reply := select(query, candidates);
    if reply.Failed? {
      return SelectorFailed(reply.reason), selectorCalled;
    }
    var t := SelectedTitle(reply.text);
    var matched := MatchTitle(hits, t);
    assert matched == FirstWithTitle(hits, t);
    if matched.None? || t == NoneTitle {
      c := Unmatched;
    } else {
      c := Picked(matched.value, Some(t));
    }
  }

  /** The response for a choice, expanding the chosen section's steps. */
  method BuildResponse(hits: seq<Hit>, c: Choice) returns (r: BotResponse)
    requires c.Picked? ==> c.index < |hits|
    ensures r == FromChoice(hits, c)
  {
    match c {
      case SelectorFailed(reason) => r := Error(reason);
      case Unmatched => r := NoRelevantContent;
      case Picked(k, title) =>
        if title == Some(NoneTitle) {
          r := NoRelevantContent;
        } else {
          match hits[k].meta.steps {
            case Unparsable(reason) => r := Error(reason);
            case NoPayload => r := Tutorial([], TitleOrEmpty(hits[k].meta.sectionTitle));
            case Payload(raws) =>
              var all := ExpandSteps(raws);
              match all {
                case Raised(reason) => r := Error(reason);
                case Expanded(steps) => r := Tutorial(steps, TitleOrEmpty(hits[k].meta.sectionTitle));
              }
          }
        }
    }
  }

  // ---------------------------------------------------------------------
  // The process-wide cache.

  /** `_response_cache`: raw query text to the result computed for it. */
  class ResponseCache {
    var entries: map<string, BotResponse>

    /** Only successful and "no relevant content" results are ever stored. */
    ghost predicate Valid()
      reads this
    {
      forall q :: q in entries ==> Cacheable(entries[q])
    }

    constructor ()
      ensures Valid() && entries == map[]
    {
      entries := map[];
    }

    /** `get_bot_response(user_query)`. `searched` and `selectorCalled` say
        which external services this call consulted. */
    method GetBotResponse(query: string, search: string -> SearchOutcome,
                          select: (string, seq<string>) -> Reply)
      returns (r: BotResponse, searched: bool, selectorCalled: bool)
      requires Valid()
      modifies this
      ensures Valid()
      ensures query in old(entries) ==>
        r == old(entries)[query] && !searched && !selectorCalled && entries == old(entries)
      ensures query !in old(entries) ==>
        && searched
        && r == Resolve(query, search(query), select)
        && selectorCalled == SelectorCalled(search(query))
        && entries == (if Cacheable(r) then old(entries)[query := r] else old(entries))
    {
      if query in entries {
        return entries[query], false, false;
      }
      searched := true;
      var outcome := search(query);
      if outcome.SearchFailed? {
        return Error(outcome.reason), searched, false;
      }
      if outcome.hits == [] {
        return NothingFound, searched, false;
      }
      var choice;
      choice, selectorCalled := ChooseHit(query, outcome.hits, select);
      r := BuildResponse(outcome.hits, choice);
      if !IsError(r) {
        entries := entries[query := r];
      }
    }

    /** Asking the same question twice: unless the first answer was an error,
        the second comes from the cache, identical, without a search. */
    method AskTwice(query: string, search: string -> SearchOutcome,
                    select: (string, seq<string>) -> Reply)
      returns (first: BotResponse, second: BotResponse, searchedAgain: bool)
      requires Valid()
      modifies this
      ensures Valid()
      ensures Cacheable(first) ==> second == first && !searchedAgain
    {
      var s1, c1, s2, c2;
      first, s1, c1 := GetBotResponse(query, search, select);
      second, s2, c2 := GetBotResponse(query, search, select);
      searchedAgain := s2;
    }

    /** `refresh_components`: the whole cache is dropped. */
    method RefreshComponents()
      modifies this
      ensures Valid() && entries == map[]
    {
      entries := map[];
    }
  }
}
