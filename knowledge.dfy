/** `KnowledgeBase` (react_agent_system_langgraph.py): the tutorial topics the
    assistant may suggest, read from the vector store's chunk metadata and
    kept per language bucket without repeats. */
module Knowledge {
  import opened Wrappers
  import opened Text
  import opened Seqs

  /** The part of one chunk's metadata the knowledge base reads. A missing
      `language` key reads as "". */
  datatype TopicMeta = TopicMeta(sectionTitle: Option<string>, language: string)

  /** One entry of the store's metadata list: readable, or one whose reading
      raises (the entry is `None`, or its `language` is not a string). */
  datatype MetaEntry = Readable(meta: TopicMeta) | Unreadable

  datatype Bucket = EnglishTopics | RomanUrduTopics

  /** The knowledge base's two topic lists as a value. */
  datatype TopicLists = TopicLists(english: seq<string>, romanUrdu: seq<string>)
  {
    /** The list of bucket `b`. */
    function Of(b: Bucket): seq<string> {
      if b == RomanUrduTopics then romanUrdu else english
    }
  }

  /** The list `get_topics(language)` answers from. */
  function TopicsFor(t: TopicLists, language: string): seq<string> {
    t.Of(RequestedBucket(language))
  }

  /** Bucket a chunk is filed under: its lowered language code mentions
      "roman" or "ur". */
  function BucketOf(languageCode: string): (b: Bucket)
    ensures b == RomanUrduTopics <==> Contains(Lower(languageCode), "roman") || Contains(Lower(languageCode), "ur")
  {
    var l := Lower(languageCode);
    if Contains(l, "roman") || Contains(l, "ur") then RomanUrduTopics else EnglishTopics
  }

  /** Bucket a caller's language asks for: it mentions "roman" or "urdu". */
  function RequestedBucket(language: string): (b: Bucket)
    ensures b == RomanUrduTopics <==> Contains(Lower(language), "roman") || Contains(Lower(language), "urdu")
  {
    var l := Lower(language);
    if Contains(l, "roman") || Contains(l, "urdu") then RomanUrduTopics else EnglishTopics
  }

  /** Whether a chunk contributes `title` to bucket `b`: the title is set and non-empty. */
  predicate Files(m: TopicMeta, b: Bucket) {
    m.sectionTitle.Some? && m.sectionTitle.value != "" && BucketOf(m.language) == b
  }

  /** The titles of bucket `b`, in store order, repeats included. */
  function TitlesIn(metas: seq<TopicMeta>, b: Bucket): (r: seq<string>)
    ensures |r| <= |metas|
  {
    if metas == [] then []
    else
      var rest := TitlesIn(metas[..|metas| - 1], b);
      var m := metas[|metas| - 1];
      if Files(m, b) then rest + [m.sectionTitle.value] else rest
  }

  /** The entries `_load_knowledge` gets through: those before the first
      unreadable one, whose exception ends the loop. */
  function ReadablePrefix(entries: seq<MetaEntry>): (r: seq<TopicMeta>)
    ensures |r| <= |entries|
    ensures forall i :: 0 <= i < |r| ==> entries[i] == Readable(r[i])
    ensures |r| < |entries| ==> entries[|r|].Unreadable?
  {
    if entries == [] || entries[0].Unreadable? then []
    else [entries[0].meta] + ReadablePrefix(entries[1..])
  }

  /** The topics of bucket `b` after a refresh; an unreachable store gives
      none, and an unreadable entry keeps what was read before it. */
  function Topics(store: Option<seq<MetaEntry>>, b: Bucket): seq<string> {
    match store
    case None => []
    case Some(entries) => Dedup(TitlesIn(ReadablePrefix(entries), b))
  }

  /** Nothing after an unreadable entry is ever read. */
  lemma {:induction false} StopsAtUnreadable(entries: seq<MetaEntry>, rest: seq<MetaEntry>, b: Bucket)
    ensures Topics(Some(entries + [Unreadable] + rest), b) == Topics(Some(entries), b)
  {
    PrefixBeforeUnreadable(entries, rest);
  }

  lemma {:induction false} PrefixBeforeUnreadable(entries: seq<MetaEntry>, rest: seq<MetaEntry>)
    ensures ReadablePrefix(entries + [Unreadable] + rest) == ReadablePrefix(entries)
  {
    var all := entries + [Unreadable] + rest;
    if entries != [] && entries[0].Readable? {
      assert all[1..] == entries[1..] + [Unreadable] + rest;
      PrefixBeforeUnreadable(entries[1..], rest);
    }
  }

  /** Some chunk of `metas` files title `t` under bucket `b`. */
  predicate FiledBySome(metas: seq<TopicMeta>, b: Bucket, t: string) {
    exists i :: 0 <= i < |metas| && Files(metas[i], b) && metas[i].sectionTitle.value == t
  }

  /** A title is listed in a bucket exactly when some chunk files it there. */
  lemma {:induction false} TitlesInMembership(metas: seq<TopicMeta>, b: Bucket, t: string)
    ensures t in TitlesIn(metas, b) <==> FiledBySome(metas, b, t)
  {
    if metas != [] {
      var init := metas[..|metas| - 1];
      TitlesInMembership(init, b, t);
      assert forall i :: 0 <= i < |init| ==> init[i] == metas[i];
      if exists i :: 0 <= i < |metas| && Files(metas[i], b) && metas[i].sectionTitle.value == t {
        var i :| 0 <= i < |metas| && Files(metas[i], b) && metas[i].sectionTitle.value == t;
        if i < |init| {
          assert Files(init[i], b) && init[i].sectionTitle.value == t;
        }
      }
    }
  }

  /** The topics of a bucket: no repeats, no empty title, and exactly the
      titles some chunk of that bucket carries among those read. */
  lemma TopicsOfStore(entries: seq<MetaEntry>, b: Bucket)
    ensures Distinct(Topics(Some(entries), b))
    ensures "" !in Topics(Some(entries), b)
    ensures forall t :: t in Topics(Some(entries), b) <==> FiledBySome(ReadablePrefix(entries), b, t)
  {
    var metas := ReadablePrefix(entries);
    forall t ensures t in Topics(Some(entries), b) <==> FiledBySome(metas, b, t) {
      TitlesInMembership(metas, b, t);
    }
  }

  /** What `get_topics(language)` answers after a refresh: no repeats, and
      exactly the titles filed, among the entries read, under the bucket the
      language asks for; an unreachable store gives none. */
  lemma TopicsAnswered(store: Option<seq<MetaEntry>>, language: string)
    ensures var r := TopicsFor(TopicLists(Topics(store, EnglishTopics), Topics(store, RomanUrduTopics)), language);
      && Distinct(r)
      && forall t :: t in r <==> store.Some? && FiledBySome(ReadablePrefix(store.value), RequestedBucket(language), t)
  {
    if store.Some? {
      TopicsOfStore(store.value, RequestedBucket(language));
    }
  }

  /** A chunk lands in at most one bucket, so the two lists never share a
      title that only one chunk carries. */
  lemma BucketsPartition(m: TopicMeta)
    ensures !(Files(m, EnglishTopics) && Files(m, RomanUrduTopics))
  {
  }

  /** A language whose request selects the Roman-Urdu list also files its
      chunks there ("urdu" contains "ur"), so such a caller is shown every
      chunk filed under its own language code. */
  lemma RequestedRomanUrduIsFiled(language: string)
    ensures RequestedBucket(language) == RomanUrduTopics ==> BucketOf(language) == RomanUrduTopics
  {
    var l := Lower(language);
    if Contains(l, "urdu") {
      var i :| OccursAt(l, "urdu", i);
      assert l[i..i + 2] == l[i..i + 4][..2];
      assert OccursAt(l, "ur", i);
    }
  }

  /** The converse fails: a code that contains "ur" without "urdu" or
      "roman", such as "Turkish", is filed under Roman-Urdu but its own
      request reads the English list. */
  lemma FiledRomanUrduNotRequested()
    ensures BucketOf("Turkish") == RomanUrduTopics
    ensures RequestedBucket("Turkish") == EnglishTopics
  {
    var l := Lower("Turkish");
    assert l == "turkish" by {
      assert l[0] == 't';
    }
    assert l[1..3] == "ur";
    assert OccursAt(l, "ur", 1);
    MissingCharNotContained(l, "roman", 2);
    MissingCharNotContained(l, "urdu", 2);
  }

  /** Nothing read yet: a repeat-free bucket is its own deduplication. */
  lemma LoadStart(start: seq<string>, metas: seq<TopicMeta>, b: Bucket)
    requires Distinct(start)
    ensures Dedup(start + TitlesIn(metas[..0], b)) == start
  {
    assert metas[..0] == [];
    assert start + TitlesIn(metas[..0], b) == start;
    DedupOfDistinct(start);
  }

  /** `m`'s title appended to bucket `b`'s list, unless it is filed elsewhere or already there. */
  function AddTopic(list: seq<string>, m: TopicMeta, b: Bucket): seq<string> {
    if Files(m, b) && m.sectionTitle.value !in list then list + [m.sectionTitle.value] else list
  }

  /** One more chunk read: the step `_load_knowledge` takes for bucket `b`. */
  lemma LoadStep(start: seq<string>, metas: seq<TopicMeta>, k: nat, b: Bucket)
    requires k < |metas|
    ensures Dedup(start + TitlesIn(metas[..k + 1], b)) == AddTopic(Dedup(start + TitlesIn(metas[..k], b)), metas[k], b)
  {
    assert metas[..k + 1][..k] == metas[..k];
    var pre := start + TitlesIn(metas[..k], b);
    if Files(metas[k], b) {
      assert start + TitlesIn(metas[..k + 1], b) == pre + [metas[k].sectionTitle.value];
      DedupSnoc(pre, metas[k].sectionTitle.value);
    }
  }

  class KnowledgeBase {
    var english: seq<string>
    var romanUrdu: seq<string>

    ghost predicate Valid()
      reads this
    {
      Distinct(english) && Distinct(romanUrdu)
    }

    /** `KnowledgeBase()`: empty buckets, then a refresh. */
    constructor (store: Option<seq<MetaEntry>>)
      ensures Valid()
      ensures english == Topics(store, EnglishTopics) && romanUrdu == Topics(store, RomanUrduTopics)
    {
      english := [];
      romanUrdu := [];
      new;
      Refresh(store);
    }

    /** `refresh`: clear both buckets and reload from the store. */
    method Refresh(store: Option<seq<MetaEntry>>)
      modifies this
      ensures Valid()
      ensures english == Topics(store, EnglishTopics) && romanUrdu == Topics(store, RomanUrduTopics)
    {
      english := [];
      romanUrdu := [];
      if store.Some? {
        assert forall b :: [] + TitlesIn(ReadablePrefix(store.value), b) == TitlesIn(ReadablePrefix(store.value), b);
        LoadKnowledge(store.value);
      }
    }

    /** `_load_knowledge` once the store answered: each chunk's title is
        appended to its bucket unless already there, until an entry raises. */
    method LoadKnowledge(entries: seq<MetaEntry>)
      requires Valid()
      modifies this
      ensures Valid()
      ensures english == Dedup(old(english) + TitlesIn(ReadablePrefix(entries), EnglishTopics))
      ensures romanUrdu == Dedup(old(romanUrdu) + TitlesIn(ReadablePrefix(entries), RomanUrduTopics))
    {
      ghost var metas := ReadablePrefix(entries);
      LoadStart(english, metas, EnglishTopics);
      LoadStart(romanUrdu, metas, RomanUrduTopics);
      var k := 0;
      while k < |entries|
        invariant 0 <= k <= |metas|
        invariant english == Dedup(old(english) + TitlesIn(metas[..k], EnglishTopics))
        invariant romanUrdu == Dedup(old(romanUrdu) + TitlesIn(metas[..k], RomanUrduTopics))
      {
        if entries[k].Unreadable? {
          break;
        }
        assert k < |metas| && metas[k] == entries[k].meta;
        AddChunk(entries[k].meta);
        LoadStep(old(english), metas, k, EnglishTopics);
        LoadStep(old(romanUrdu), metas, k, RomanUrduTopics);
        k := k + 1;
      }
      assert k == |metas|;
      assert metas[..k] == metas;
    }

    /** The body of `_load_knowledge`'s loop for one readable chunk. */
    method AddChunk(m: TopicMeta)
      requires Valid()
      modifies this
      ensures Valid()
      ensures english == AddTopic(old(english), m, EnglishTopics)
      ensures romanUrdu == AddTopic(old(romanUrdu), m, RomanUrduTopics)
    {
      var title := m.sectionTitle;
      var bucket := BucketOf(m.language);
      if title.Some? && title.value != "" {
        if bucket == RomanUrduTopics {
          if title.value !in romanUrdu {
            romanUrdu := romanUrdu + [title.value];
          }
        } else if title.value !in english {
          english := english + [title.value];
        }
      }
    }

    /** `get_topics(language)`: never a repeated topic. */
    function GetTopics(language: string): (r: seq<string>)
      reads this
      ensures Valid() ==> Distinct(r)
    {
      TopicsFor(Lists(), language)
    }

    /** The two lists as they stand. */
    function Lists(): TopicLists
      reads this
    {
      TopicLists(english, romanUrdu)
    }
  }
}
