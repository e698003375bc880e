/** The ingestion script: tutorial files become one document per section,
    and the vector store is brought in line with them incrementally (new and
    changed sections upserted, vanished ones deleted). Embedding, SHA-256
    and JSON serialisation are parameters. */
module Ingest {
  import opened Wrappers
  import opened Json
  import Text
  import Seqs

  /** One `sections` item of a tutorial file. */
  datatype Section = Section(title: string, description: string, steps: seq<Json>)

  /** A tutorial JSON file: its file name (`path.name`) and contents. */
  datatype TutorialFile = TutorialFile(name: string, tutorialName: string, language: string,
                                       sections: seq<Section>)

  /** The metadata dict of a document: the keys `load_json_docs` writes,
      plus `content_hash` once `main` has set it. */
  datatype Metadata = Metadata(contentType: string, tutorialName: string, language: string,
                               sectionTitle: string, source: string, stepsJson: string,
                               sectionDescription: string, contentHash: Option<string>)

  /** `{"text": ..., "metadata": ...}`; also what the store keeps under an id. */
  datatype Doc = Doc(text: string, metadata: Metadata)

  /** `compute_hash(text, metadata)`: SHA-256 of the text and the sorted
      metadata, taken as given. */
  type Hasher = (string, Metadata) -> string

  // ---------------------------------------------------------------------
  // load_json_docs

  /** The text embedded for a section. */
  function EmbeddingText(file: TutorialFile, section: Section): string {
    "Tutorial: " + file.tutorialName + " | Language: " + file.language
    + " | Section: " + section.title + " | Task: " + section.description
    + " | Steps: " + Text.NatToString(|section.steps|) + " steps to complete this task"
  }

  /** The metadata stored with a section; `dumps` is `json.dumps`. */
  function SectionMetadata(file: TutorialFile, section: Section, dumps: Json -> string): Metadata {
    Metadata("tutorial", file.tutorialName, file.language, section.title, file.name,
             dumps(JList(section.steps)), section.description, None)
  }

  function SectionDoc(file: TutorialFile, section: Section, dumps: Json -> string): Doc {
    Doc(EmbeddingText(file, section), SectionMetadata(file, section, dumps))
  }

  /** The documents of one file, one per section in order. */
  function FileDocs(file: TutorialFile, dumps: Json -> string): (r: seq<Doc>)
    ensures |r| == |file.sections|
  {
    seq(|file.sections|, i requires 0 <= i < |file.sections| => SectionDoc(file, file.sections[i], dumps))
  }

  /** The documents of all files, file after file. */
  function Docs(files: seq<TutorialFile>, dumps: Json -> string): seq<Doc> {
    if files == [] then []
    else Docs(files[..|files| - 1], dumps) + FileDocs(files[|files| - 1], dumps)
  }

  /** Number of sections in all files. */
  function SectionCount(files: seq<TutorialFile>): nat {
    if files == [] then 0 else SectionCount(files[..|files| - 1]) + |files[|files| - 1].sections|
  }

  /** `load_json_docs`: the files arrive already parsed, in glob order. */
  method LoadJsonDocs(files: seq<TutorialFile>, dumps: Json -> string) returns (docs: seq<Doc>)
    ensures docs == Docs(files, dumps)
  {
    docs := [];
    var i := 0;
    while i < |files|
      invariant 0 <= i <= |files|
      invariant docs == Docs(files[..i], dumps)
    {
      var file := files[i];
      var j := 0;
      while j < |file.sections|
        invariant 0 <= j <= |file.sections|
        invariant docs == Docs(files[..i], dumps) + FileDocs(file, dumps)[..j]
      {
        var section := file.sections[j];
        docs := docs + [Doc(EmbeddingText(file, section), SectionMetadata(file, section, dumps))];
        assert FileDocs(file, dumps)[..j + 1] == FileDocs(file, dumps)[..j] + [SectionDoc(file, section, dumps)];
        j := j + 1;
      }
      assert FileDocs(file, dumps)[..j] == FileDocs(file, dumps);
      assert files[..i + 1][..i] == files[..i];
      i := i + 1;
    }
    assert files[..i] == files;
  }

  /** Exactly one document per section. */
  lemma {:induction false} DocsCount(files: seq<TutorialFile>, dumps: Json -> string)
    ensures |Docs(files, dumps)| == SectionCount(files)
  {
    if files != [] {
      DocsCount(files[..|files| - 1], dumps);
    }
  }

  /** The documents come in file-then-section order: section `s` of file `f`
      sits after every section of the files before `f`. */
  lemma {:induction false} DocsOrder(files: seq<TutorialFile>, dumps: Json -> string, f: nat, s: nat)
    requires f < |files| && s < |files[f].sections|
    ensures SectionCount(files[..f]) + s < |Docs(files, dumps)|
    ensures Docs(files, dumps)[SectionCount(files[..f]) + s] == SectionDoc(files[f], files[f].sections[s], dumps)
  {
    var n := |files|;
    var front := files[..n - 1];
    DocsCount(front, dumps);
    if f == n - 1 {
      assert files[..f] == front;
    } else {
      assert front[..f] == files[..f];
      DocsOrder(front, dumps, f, s);
    }
  }

  // ---------------------------------------------------------------------
  // Ids

  /** `f"{source}_{section_title}".replace(" ", "_")`. */
  function DocId(source: string, title: string): string {
    Text.ReplaceChar(source + "_" + title, ' ', '_')
  }

  /** An id has no spaces, the length of source, "_" and title, and equals
      that concatenation when neither part has a space. */
  lemma DocIdShape(source: string, title: string)
    ensures ' ' !in DocId(source, title)
    ensures |DocId(source, title)| == |source| + 1 + |title|
    ensures ' ' !in source && ' ' !in title ==> DocId(source, title) == source + "_" + title
  {
    var raw := source + "_" + title;
    if ' ' !in source && ' ' !in title {
      forall i | 0 <= i < |raw| ensures raw[i] != ' ' {
        if i < |source| { assert raw[i] == source[i]; }
        else if i > |source| { assert raw[i] == title[i - |source| - 1]; }
      }
    }
  }

  /** The id of a document, from its `source` and `section_title`. */
  function IdOf(d: Doc): string {
    DocId(d.metadata.source, d.metadata.sectionTitle)
  }

  /** `current_ids`: the ids of the documents, in order. */
  function IdList(docs: seq<Doc>): (r: seq<string>)
    ensures |r| == |docs|
    ensures forall k :: 0 <= k < |docs| ==> r[k] == IdOf(docs[k])
  {
    if docs == [] then [] else IdList(docs[..|docs| - 1]) + [IdOf(docs[|docs| - 1])]
  }

  // ---------------------------------------------------------------------
  // The sync plan of `main`

  /** The metadata after `d['metadata']['content_hash'] = current_hash`. */
  function Hashed(d: Doc, hash: Hasher): Metadata {
    d.metadata.(contentHash := Some(hash(d.text, d.metadata)))
  }

  /** What the upsert stores for `d`. */
  function UpsertOf(d: Doc, hash: Hasher): (string, Doc) {
    (IdOf(d), Doc(d.text, Hashed(d, hash)))
  }

  /** `d` is new to the store, or its stored hash differs from the current one. */
  predicate NeedsUpsert(existing: map<string, Doc>, d: Doc, hash: Hasher) {
    IdOf(d) !in existing
    || existing[IdOf(d)].metadata.contentHash != Some(hash(d.text, d.metadata))
  }

  /** The `to_add_*` lists, zipped. */
  function Upserts(existing: map<string, Doc>, docs: seq<Doc>, hash: Hasher): seq<(string, Doc)> {
    if docs == [] then []
    else
      var front := Upserts(existing, docs[..|docs| - 1], hash);
      var d := docs[|docs| - 1];
      if NeedsUpsert(existing, d, hash) then front + [UpsertOf(d, hash)] else front
  }

  /** `add_count`: documents whose id the store does not have. */
  function NewCount(existing: map<string, Doc>, docs: seq<Doc>): nat {
    if docs == [] then 0
    else NewCount(existing, docs[..|docs| - 1]) + (if IdOf(docs[|docs| - 1]) !in existing then 1 else 0)
  }

  /** `update_count`: documents whose id the store has with another hash. */
  function ChangedCount(existing: map<string, Doc>, docs: seq<Doc>, hash: Hasher): nat {
    if docs == [] then 0
    else
      var d := docs[|docs| - 1];
      ChangedCount(existing, docs[..|docs| - 1], hash)
      + (if IdOf(d) in existing && NeedsUpsert(existing, d, hash) then 1 else 0)
  }

  function Ids(items: seq<(string, Doc)>): (r: seq<string>)
    ensures |r| == |items|
  {
    seq(|items|, i requires 0 <= i < |items| => items[i].0)
  }

  /** `existing_ids - set(current_ids)`. */
  function Stale(existing: map<string, Doc>, docs: seq<Doc>): set<string> {
    set x | x in existing.Keys && x !in IdList(docs)
  }

  /** The store after upserting `items` in order. */
  function ApplyUpserts(entries: map<string, Doc>, items: seq<(string, Doc)>): map<string, Doc> {
    if items == [] then entries
    else ApplyUpserts(entries, items[..|items| - 1])[items[|items| - 1].0 := items[|items| - 1].1]
  }

  /** Every new or changed document is counted once, as new or as changed. */
  lemma {:induction false} CountsAddUp(existing: map<string, Doc>, docs: seq<Doc>, hash: Hasher)
    ensures NewCount(existing, docs) + ChangedCount(existing, docs, hash) == |Upserts(existing, docs, hash)|
  {
    if docs != [] {
      CountsAddUp(existing, docs[..|docs| - 1], hash);
    }
  }

  /** A document is upserted iff it needs it; nothing else is upserted. */
  lemma {:induction false} UpsertsCover(existing: map<string, Doc>, docs: seq<Doc>, hash: Hasher)
    ensures forall k :: 0 <= k < |docs| && NeedsUpsert(existing, docs[k], hash) ==>
      UpsertOf(docs[k], hash) in Upserts(existing, docs, hash)
    ensures forall item :: item in Upserts(existing, docs, hash) ==>
      exists k :: 0 <= k < |docs| && item == UpsertOf(docs[k], hash) && NeedsUpsert(existing, docs[k], hash)
  {
    if docs != [] {
      var front := docs[..|docs| - 1];
      UpsertsCover(existing, front, hash);
      forall k | 0 <= k < |docs| - 1 ensures docs[k] == front[k] { }
    }
  }

  /** With distinct document ids, the upserted ids are distinct too, and a
      document that needs no upsert has its id left alone. */
  lemma {:induction false} UpsertsDistinct(existing: map<string, Doc>, docs: seq<Doc>, hash: Hasher)
    requires Seqs.Distinct(IdList(docs))
    ensures Seqs.Distinct(Ids(Upserts(existing, docs, hash)))
    ensures forall k :: 0 <= k < |docs| && !NeedsUpsert(existing, docs[k], hash) ==>
      IdOf(docs[k]) !in Ids(Upserts(existing, docs, hash))
  {
    if docs != [] {
      var n := |docs|;
      var front := docs[..n - 1];
      assert IdList(front) == IdList(docs)[..n - 1];
      UpsertsDistinct(existing, front, hash);
      var ups := Upserts(existing, front, hash);
      var last := IdOf(docs[n - 1]);
      FrontUpsertsMissLast(existing, docs, hash);
      assert Ids(Upserts(existing, docs, hash)) ==
        if NeedsUpsert(existing, docs[n - 1], hash) then Ids(ups) + [last] else Ids(ups);
      forall k | 0 <= k < n - 1 && !NeedsUpsert(existing, docs[k], hash)
        ensures IdOf(docs[k]) !in Ids(Upserts(existing, docs, hash))
      {
        assert docs[k] == front[k];
        assert IdList(docs)[k] != IdList(docs)[n - 1];
      }
    }
  }

  /** With distinct ids, nothing upserted for the documents before the last
      carries the last document's id. */
  lemma FrontUpsertsMissLast(existing: map<string, Doc>, docs: seq<Doc>, hash: Hasher)
    requires docs != [] && Seqs.Distinct(IdList(docs))
    ensures IdOf(docs[|docs| - 1]) !in Ids(Upserts(existing, docs[..|docs| - 1], hash))
  {
    var n := |docs|;
    var front := docs[..n - 1];
    UpsertsCover(existing, front, hash);
    var ups := Upserts(existing, front, hash);
    forall j | 0 <= j < |ups| ensures Ids(ups)[j] != IdOf(docs[n - 1]) {
      assert ups[j] in ups;
      var k :| 0 <= k < |front| && ups[j] == UpsertOf(front[k], hash) && NeedsUpsert(existing, front[k], hash);
      assert IdList(docs)[k] != IdList(docs)[n - 1];
    }
  }

  /** Upserting items with distinct ids stores each item under its id, and
      leaves every other id as it was. */
  lemma {:induction false} ApplyUpsertsLookup(entries: map<string, Doc>, items: seq<(string, Doc)>)
    requires Seqs.Distinct(Ids(items))
    ensures forall j :: 0 <= j < |items| ==>
      items[j].0 in ApplyUpserts(entries, items) && ApplyUpserts(entries, items)[items[j].0] == items[j].1
    ensures forall x :: x !in Ids(items) ==>
      (x in ApplyUpserts(entries, items) <==> x in entries)
      && (x in entries ==> ApplyUpserts(entries, items)[x] == entries[x])
  {
    if items != [] {
      var n := |items|;
      var front := items[..n - 1];
      assert Ids(front) == Ids(items)[..n - 1];
      ApplyUpsertsLookup(entries, front);
      forall j | 0 <= j < n - 1 ensures items[j].0 != items[n - 1].0 {
        assert Ids(items)[j] != Ids(items)[n - 1];
      }
      forall x | x !in Ids(items) ensures x !in Ids(front) && x != items[n - 1].0 {
        assert Ids(items)[n - 1] == items[n - 1].0;
      }
    }
  }

  /** After a sync the store holds exactly the ids of the current documents. */
  lemma SyncedKeys(existing: map<string, Doc>, docs: seq<Doc>, hash: Hasher)
    ensures ApplyUpserts(existing - Stale(existing, docs), Upserts(existing, docs, hash)).Keys
      == set k | 0 <= k < |docs| :: IdOf(docs[k])
  {
    var ups := Upserts(existing, docs, hash);
    var kept := existing - Stale(existing, docs);
    UpsertsCover(existing, docs, hash);
    ApplyUpsertsKeys(kept, ups);
    forall x | x in ApplyUpserts(kept, ups) ensures exists k :: 0 <= k < |docs| && IdOf(docs[k]) == x {
      if x in kept {
        assert x in IdList(docs);
        var k :| 0 <= k < |docs| && IdList(docs)[k] == x;
      } else {
        var j :| 0 <= j < |ups| && ups[j].0 == x;
        assert ups[j] in ups;
      }
    }
    forall k | 0 <= k < |docs| ensures IdOf(docs[k]) in ApplyUpserts(kept, ups) {
      assert IdList(docs)[k] == IdOf(docs[k]);
      if IdOf(docs[k]) !in existing {
        assert UpsertOf(docs[k], hash) in ups;
        var j :| 0 <= j < |ups| && ups[j] == UpsertOf(docs[k], hash);
      }
    }
  }

  /** The keys after upserting are the keys before plus the upserted ids. */
  lemma {:induction false} ApplyUpsertsKeys(entries: map<string, Doc>, items: seq<(string, Doc)>)
    ensures forall x :: x in ApplyUpserts(entries, items) <==>
      x in entries || exists j :: 0 <= j < |items| && items[j].0 == x
  {
    if items != [] {
      ApplyUpsertsKeys(entries, items[..|items| - 1]);
      assert forall j :: 0 <= j < |items| - 1 ==> items[..|items| - 1][j] == items[j];
    }
  }

  /** Syncing the same documents a second time (with distinct ids) finds
      nothing to upsert and nothing to delete. */
  lemma SecondSyncIsQuiet(existing: map<string, Doc>, docs: seq<Doc>, hash: Hasher)
    requires Seqs.Distinct(IdList(docs))
    ensures var after := ApplyUpserts(existing - Stale(existing, docs), Upserts(existing, docs, hash));
      Upserts(after, docs, hash) == [] && Stale(after, docs) == {}
  {
    var ups := Upserts(existing, docs, hash);
    var kept := existing - Stale(existing, docs);
    var after := ApplyUpserts(kept, ups);
    UpsertsCover(existing, docs, hash);
    UpsertsDistinct(existing, docs, hash);
    ApplyUpsertsLookup(kept, ups);
    SyncedKeys(existing, docs, hash);
    forall k | 0 <= k < |docs| ensures !NeedsUpsert(after, docs[k], hash) {
      var d := docs[k];
      assert IdList(docs)[k] == IdOf(d);
      if NeedsUpsert(existing, d, hash) {
        var j :| 0 <= j < |ups| && ups[j] == UpsertOf(d, hash);
        assert after[IdOf(d)] == Doc(d.text, Hashed(d, hash));
      } else {
        assert IdOf(d) in kept;
      }
    }
    NothingNeeded(after, docs, hash);
    assert forall x :: x in after ==> x in IdList(docs) by {
      forall x | x in after ensures x in IdList(docs) {
        var k :| 0 <= k < |docs| && IdOf(docs[k]) == x;
        assert IdList(docs)[k] == x;
      }
    }
  }

  /** When no document needs an upsert the plan is empty. */
  lemma {:induction false} NothingNeeded(existing: map<string, Doc>, docs: seq<Doc>, hash: Hasher)
    requires forall k :: 0 <= k < |docs| ==> !NeedsUpsert(existing, docs[k], hash)
    ensures Upserts(existing, docs, hash) == []
  {
    if docs != [] {
      NothingNeeded(existing, docs[..|docs| - 1], hash);
    }
  }

  // ---------------------------------------------------------------------
  // The store and `main`

  /** The calls `main` makes on the store. */
  datatype Call = DeleteCall(deleted: set<string>) | UpsertCall(upserted: seq<string>)

  /** What a run of `main` did. */
  datatype SyncReport =
    | NoDocs
    | Synced(added: nat, updated: nat, deleted: set<string>, upserted: seq<string>)

  class VectorStore {
    var entries: map<string, Doc>
    /** The delete and upsert calls received, oldest first. */
    var calls: seq<Call>

    constructor (initial: map<string, Doc>)
      ensures entries == initial && calls == []
    {
      entries := initial;
      calls := [];
    }

    /** `vectordb.delete(ids=...)`. */
    method Delete(ids: set<string>)
      modifies this
      ensures entries == old(entries) - ids
      ensures calls == old(calls) + [DeleteCall(ids)]
    {
      entries := entries - ids;
      calls := calls + [DeleteCall(ids)];
    }

    /** `vectordb.add_texts(...)`, an upsert by id in list order. */
    method AddTexts(items: seq<(string, Doc)>)
      modifies this
      ensures entries == ApplyUpserts(old(entries), items)
      ensures calls == old(calls) + [UpsertCall(Ids(items))]
    {
      var i := 0;
      while i < |items|
        invariant 0 <= i <= |items|
        invariant calls == old(calls)
        invariant entries == ApplyUpserts(old(entries), items[..i])
      {
        entries := entries[items[i].0 := items[i].1];
        assert items[..i + 1][..i] == items[..i];
        i := i + 1;
      }
      assert items[..i] == items;
      calls := calls + [UpsertCall(Ids(items))];
    }
  }

  /** One more document extends each of the plan's functions by that
      document's share. */
  lemma PlanStep(existing: map<string, Doc>, docs: seq<Doc>, i: nat, hash: Hasher)
    requires i < |docs|
    ensures var d, before := docs[i], docs[..i];
      && Upserts(existing, docs[..i + 1], hash) ==
           Upserts(existing, before, hash) + (if NeedsUpsert(existing, d, hash) then [UpsertOf(d, hash)] else [])
      && IdList(docs[..i + 1]) == IdList(before) + [IdOf(d)]
      && NewCount(existing, docs[..i + 1]) == NewCount(existing, before) + (if IdOf(d) !in existing then 1 else 0)
      && ChangedCount(existing, docs[..i + 1], hash) ==
           ChangedCount(existing, before, hash) + (if IdOf(d) in existing && NeedsUpsert(existing, d, hash) then 1 else 0)
  {
    assert docs[..i + 1][..i] == docs[..i];
  }

  /** The classification loop of `main`: the upsert list and the two counts. */
  method Plan(existing: map<string, Doc>, docs: seq<Doc>, hash: Hasher)
    returns (toAdd: seq<(string, Doc)>, currentIds: seq<string>, addCount: nat, updateCount: nat)
    ensures toAdd == Upserts(existing, docs, hash)
    ensures currentIds == IdList(docs)
    ensures addCount == NewCount(existing, docs) && updateCount == ChangedCount(existing, docs, hash)
  {
    toAdd, currentIds, addCount, updateCount := [], [], 0, 0;
    var i := 0;
    while i < |docs|
      invariant 0 <= i <= |docs|
      invariant toAdd == Upserts(existing, docs[..i], hash)
      invariant currentIds == IdList(docs[..i])
      invariant addCount == NewCount(existing, docs[..i])
      invariant updateCount == ChangedCount(existing, docs[..i], hash)
    {
      var d := docs[i];
      PlanStep(existing, docs, i, hash);
      var id := IdOf(d);
      currentIds := currentIds + [id];
      var currentHash := hash(d.text, d.metadata);
      var meta := d.metadata.(contentHash := Some(currentHash));
      var needsUpdate := false;
      if id !in existing {
        needsUpdate := true;
        addCount := addCount + 1;
      } else if existing[id].metadata.contentHash != Some(currentHash) {
        needsUpdate := true;
        updateCount := updateCount + 1;
      }
      if needsUpdate {
        toAdd := toAdd + [(id, Doc(d.text, meta))];
      }
      i := i + 1;
    }
    assert docs[..i] == docs;
  }

  /** `main` after loading: with no documents nothing happens; otherwise the
      stale ids are deleted (only if there are any) and the new or changed
      documents upserted (only if there are any). */
  method SyncIndex(store: VectorStore, docs: seq<Doc>, hash: Hasher) returns (report: SyncReport)
    modifies store
    ensures docs == [] ==> report == NoDocs && store.entries == old(store.entries) && store.calls == old(store.calls)
    ensures docs != [] ==>
      var existing := old(store.entries);
      var ups := Upserts(existing, docs, hash);
      var stale := Stale(existing, docs);
      && report == Synced(NewCount(existing, docs), ChangedCount(existing, docs, hash), stale, Ids(ups))
      && store.entries == ApplyUpserts(existing - stale, ups)
      && store.calls == old(store.calls) + (if stale != {} then [DeleteCall(stale)] else [])
                                         + (if ups != [] then [UpsertCall(Ids(ups))] else [])
  {
    if docs == [] {
      return NoDocs;
    }
    var existing := store.entries;
    var toAdd, currentIds, addCount, updateCount := Plan(existing, docs, hash);
    var toDelete := set x | x in existing.Keys && x !in currentIds;
    if toDelete != {} {
      store.Delete(toDelete);
    } else {
      assert existing - toDelete == existing;
    }
    if toAdd != [] {
      store.AddTexts(toAdd);
    }
    report := Synced(addCount, updateCount, toDelete, Ids(toAdd));
  }
}
