/** The chat-session store (`SessionManager`): a `Session` table of headers
    and a `SessionInformation` table of (question, response) rows, here held
    as two maps keyed by session id. Timestamps are not modelled. */
module Sessions {
  import opened Wrappers
  import opened Json
  import Text

  /** One history entry as the store hands it out:
      `{"role": ..., "content": ...}`, plus `"data"` when present. */
  datatype Message = Message(role: string, content: string, data: Option<Json>)

  /** A `SessionInformation` row. `response` is `None` for SQL NULL;
      `metadata` holds the decoded `response_metadata` column. */
  datatype Row = Row(question: string, response: Option<string>, metadata: Option<Json>)

  /** A `Session` row without its timestamps. */
  datatype Header = Header(userId: string, title: string)

  /** The dict `get_session` returns, without its timestamps. */
  datatype Session = Session(sessionId: string, userId: string, title: string, history: seq<Message>)

  const NewChatTitle := "New Chat"
  const TitleLimit := 50
  const Ellipsis := "..."

  // ---------------------------------------------------------------------
  // Titles.

  /** `title[:50] + ("..." if len(title) > 50 else "")`. */
  function ShortTitle(title: string): string {
    Text.FirstN(title, TitleLimit) + (if |title| > TitleLimit then Ellipsis else "")
  }

  /** A title of at most 50 characters is kept; a longer one becomes its
      first 50 characters and "...". */
  lemma ShortTitleShape(title: string)
    ensures |title| <= TitleLimit ==> ShortTitle(title) == title
    ensures |title| > TitleLimit ==>
      |ShortTitle(title)| == TitleLimit + 3 && ShortTitle(title) == title[..TitleLimit] + Ellipsis
  {
  }

  /** Shortening a stored title again changes nothing. */
  lemma ShortTitleIdempotent(title: string)
    ensures ShortTitle(ShortTitle(title)) == ShortTitle(title)
  {
    var t := ShortTitle(title);
    if |title| > TitleLimit {
      assert t[..TitleLimit] == title[..TitleLimit];
      assert t == t[..TitleLimit] + Ellipsis;
    }
  }

  // ---------------------------------------------------------------------
  // Turn pairing and history reconstruction.

  /** `(q, r, r_meta)` for the pair starting at index `i` of `history`. */
  function TurnAt(history: seq<Message>, i: nat): Row
    requires i < |history|
  {
    if i + 1 < |history| then
      var reply := history[i + 1];
      Row(history[i].content, Some(reply.content),
          if reply.data.Some? && Truthy(reply.data.value) then reply.data else None)
    else
      Row(history[i].content, None, None)
  }

  /** The `turns` list of `save_session`: item `k` pairs `history[2k]` with
      `history[2k + 1]` when it exists. */
  function Turns(history: seq<Message>): (r: seq<Row>)
    ensures |r| == (|history| + 1) / 2
  {
    seq((|history| + 1) / 2, k requires 0 <= k < (|history| + 1) / 2 => TurnAt(history, 2 * k))
  }

  /** `turns[count:]`. */
  function Drop<T>(s: seq<T>, count: nat): (r: seq<T>)
    ensures count <= |s| ==> r == s[count..]
    ensures count > |s| ==> r == []
  {
    if count <= |s| then s[count..] else []
  }

  /** Skipping as many turns as were stored leaves exactly the turns added
      since: what `save_session` relies on when it skips one turn per row. */
  lemma DropStored<T>(s: seq<T>, t: seq<T>)
    ensures Drop(s + t, |s|) == t
  {
  }

  /** The messages one row reads back as: the user message when the question
      is non-empty, then the assistant message when the response is. */
  function RowMessages(row: Row): seq<Message> {
    (if row.question != "" then [Message("user", row.question, None)] else [])
    + (if row.response.Some? && row.response.value != "" then
         [Message("assistant", row.response.value, row.metadata)]
       else [])
  }

  /** The history `get_session` rebuilds from rows in id order. */
  function Rebuild(rows: seq<Row>): seq<Message> {
    if rows == [] then [] else Rebuild(rows[..|rows| - 1]) + RowMessages(rows[|rows| - 1])
  }

  /** The shape `chat()` keeps a history in: user and assistant messages
      alternate, starting with the user, none is empty, only assistant
      messages carry data and that data is truthy. */
  ghost predicate Alternating(history: seq<Message>) {
    && |history| % 2 == 0
    && (forall i :: 0 <= i < |history| ==> history[i].content != "")
    && (forall i :: 0 <= i < |history| && i % 2 == 0 ==>
          history[i].role == "user" && history[i].data == None)
    && (forall i :: 0 <= i < |history| && i % 2 == 1 ==>
          history[i].role == "assistant" && (history[i].data.Some? ==> Truthy(history[i].data.value)))
  }

  /** Rows that read back as exactly two messages each. */
  ghost predicate CompleteRows(rows: seq<Row>) {
    forall k :: 0 <= k < |rows| ==>
      && rows[k].question != ""
      && rows[k].response.Some? && rows[k].response.value != ""
      && (rows[k].metadata.Some? ==> Truthy(rows[k].metadata.value))
  }

  /** Two more messages after an even-length history add one turn. */
  lemma TurnsOfPair(history: seq<Message>, u: Message, a: Message)
    requires |history| % 2 == 0
    ensures Turns(history + [u, a]) == Turns(history) + [TurnAt([u, a], 0)]
  {
    var h := history + [u, a];
    var n := |history| / 2;
    forall k | 0 <= k < n ensures Turns(h)[k] == Turns(history)[k] {
      assert h[2 * k] == history[2 * k];
      assert h[2 * k + 1] == history[2 * k + 1];
    }
    assert TurnAt(h, 2 * n) == TurnAt([u, a], 0);
  }

  /** Dropping the last two messages of an alternating history leaves an
      alternating history; the two dropped are a user and an assistant message. */
  lemma AlternatingFront(history: seq<Message>)
    requires Alternating(history) && history != []
    ensures |history| >= 2
    ensures Alternating(history[..|history| - 2])
    ensures var u := history[|history| - 2];
      u == Message("user", u.content, None) && u.content != ""
    ensures var a := history[|history| - 1];
      && a.role == "assistant" && a.content != ""
      && (a.data.Some? ==> Truthy(a.data.value))
  {
    var n := |history|;
    assert (n - 2) % 2 == 0 && (n - 1) % 2 == 1;
  }

  /** Saving an alternating history and reading it back gives it unchanged. */
  lemma {:induction false} RebuildTurns(history: seq<Message>)
    requires Alternating(history)
    ensures Rebuild(Turns(history)) == history
    ensures CompleteRows(Turns(history))
    decreases |history|
  {
    if history != [] {
      AlternatingFront(history);
      var n := |history|;
      var front, u, a := history[..n - 2], history[n - 2], history[n - 1];
      RebuildTurns(front);
      assert history == front + [u, a];
      TurnsOfPair(front, u, a);
      var row := Row(u.content, Some(a.content), a.data);
      assert TurnAt([u, a], 0) == row;
      var t := Turns(history);
      assert t == Turns(front) + [row];
      assert t[..|t| - 1] == Turns(front);
      assert RowMessages(row) == [u, a];
    }
  }

  /** Reading complete rows back and pairing the result again gives the rows. */
  lemma {:induction false} TurnsRebuild(rows: seq<Row>)
    requires CompleteRows(rows)
    ensures Turns(Rebuild(rows)) == rows
    ensures Alternating(Rebuild(rows))
    decreases |rows|
  {
    if rows != [] {
      var front := rows[..|rows| - 1];
      var last := rows[|rows| - 1];
      assert CompleteRows(front);
      TurnsRebuild(front);
      var u := Message("user", last.question, None);
      var a := Message("assistant", last.response.value, last.metadata);
      assert RowMessages(last) == [u, a];
      TurnsOfPair(Rebuild(front), u, a);
      AlternatingSnoc(Rebuild(front), u, a);
      assert TurnAt([u, a], 0) == last;
      assert rows == front + [last];
    }
  }

  /** A user and an assistant message appended to an alternating history
      keep it alternating. */
  lemma AlternatingSnoc(history: seq<Message>, u: Message, a: Message)
    requires Alternating(history)
    requires u.role == "user" && u.content != "" && u.data == None
    requires a.role == "assistant" && a.content != "" && (a.data.Some? ==> Truthy(a.data.value))
    ensures Alternating(history + [u, a])
  {
    var h := history + [u, a];
    var n := |history|;
    forall i | 0 <= i < |h| ensures h[i].content != "" {
      if i < n { assert h[i] == history[i]; }
    }
    forall i | 0 <= i < |h| && i % 2 == 0 ensures h[i].role == "user" && h[i].data == None {
      if i < n { assert h[i] == history[i]; }
    }
    forall i | 0 <= i < |h| && i % 2 == 1
      ensures h[i].role == "assistant" && (h[i].data.Some? ==> Truthy(h[i].data.value))
    {
      if i < n { assert h[i] == history[i]; }
    }
  }

  /** The step `chat()` takes: stored complete rows, plus one user and one
      assistant message, are saved by inserting exactly one new row. */
  lemma SaveOneTurn(rows: seq<Row>, u: Message, a: Message)
    requires CompleteRows(rows)
    ensures Drop(Turns(Rebuild(rows) + [u, a]), |rows|) ==
      [Row(u.content, Some(a.content), if a.data.Some? && Truthy(a.data.value) then a.data else None)]
  {
    TurnsRebuild(rows);
    TurnsOfPair(Rebuild(rows), u, a);
  }

  /** Row pairing assumes every stored row reads back as two messages. A row
      with an empty response reads back as the user message alone, so the
      next turn's user and assistant messages are paired with the wrong
      partners: the only row inserted holds the assistant's text as its
      question and no response, and the new question is never stored. */
  lemma EmptyResponseMisaligns(q: string, u: Message, a: Message)
    requires q != ""
    ensures var rows := [Row(q, Some(""), None)];
      Drop(Turns(Rebuild(rows) + [u, a]), |rows|) == [Row(a.content, None, None)]
  {
    var rows := [Row(q, Some(""), None)];
    assert rows[..0] == [];
    assert Rebuild(rows) == [Message("user", q, None)];
    var h := Rebuild(rows) + [u, a];
    assert |Turns(h)| == 2;
    assert Turns(h)[1] == TurnAt(h, 2);
  }

  /** The session as `get_session(user_id, session_id)` sees the tables. */
  function Lookup(headers: map<string, Header>, rows: map<string, seq<Row>>,
                  userId: string, sessionId: string): (r: Option<Session>)
    ensures r.Some? <==> sessionId in headers && headers[sessionId].userId == userId
  {
    if sessionId in headers && headers[sessionId].userId == userId then
      Some(Session(sessionId, userId, headers[sessionId].title, Rebuild(RowsOf(rows, sessionId))))
    else None
  }

  /** The rows stored for a session id, in id order. */
  function RowsOf(rows: map<string, seq<Row>>, sessionId: string): seq<Row> {
    if sessionId in rows then rows[sessionId] else []
  }

  /** The title `save_session` stores, if it updates it: only for a
      non-empty title. */
  function SavedHeaders(headers: map<string, Header>, sessionId: string, title: Option<string>)
    : map<string, Header>
  {
    if sessionId in headers && title.Some? && title.value != "" then
      headers[sessionId := headers[sessionId].(title := ShortTitle(title.value))]
    else headers
  }

  class SessionStore {
    var headers: map<string, Header>
    var rows: map<string, seq<Row>>

    constructor ()
      ensures headers == map[] && rows == map[]
    {
      headers := map[];
      rows := map[];
    }

    /** `create_session(user_id)`; `freshId` stands for `uuid.uuid4()`. */
    method CreateSession(userId: string, freshId: string) returns (sessionId: string)
      requires freshId !in headers
      modifies this
      ensures sessionId == freshId
      ensures headers == old(headers)[freshId := Header(userId, NewChatTitle)]
      ensures rows == old(rows)
    {
      headers := headers[freshId := Header(userId, NewChatTitle)];
      sessionId := freshId;
    }

    /** `get_session(user_id, session_id)`. */
    method GetSession(userId: string, sessionId: string) returns (r: Option<Session>)
      ensures r == Lookup(headers, rows, userId, sessionId)
    {
      if !(sessionId in headers && headers[sessionId].userId == userId) {
        return None;
      }
      var stored := RowsOf(rows, sessionId);
      var history: seq<Message> := [];
      var i := 0;
      while i < |stored|
        invariant 0 <= i <= |stored|
        invariant history == Rebuild(stored[..i])
      {
        var row := stored[i];
        if row.question != "" {
          history := history + [Message("user", row.question, None)];
        }
        if row.response.Some? && row.response.value != "" {
          history := history + [Message("assistant", row.response.value, row.metadata)];
        }
        assert stored[..i + 1][..i] == stored[..i];
        i := i + 1;
      }
      assert stored[..i] == stored;
      r := Some(Session(sessionId, userId, headers[sessionId].title, history));
    }

    /** `save_session(user_id, session_id, history, title)`: update the title,
        pair the history into turns and insert those past the stored row
        count; then read the session back. */
    method SaveSession(userId: string, sessionId: string, history: seq<Message>, title: Option<string>)
      returns (r: Option<Session>)
      modifies this
      ensures headers == SavedHeaders(old(headers), sessionId, title)
      ensures rows == old(rows)[sessionId :=
        RowsOf(old(rows), sessionId) + Drop(Turns(history), |RowsOf(old(rows), sessionId)|)]
      ensures r == Lookup(headers, rows, userId, sessionId)
    {
      if title.Some? && title.value != "" && sessionId in headers {
        headers := headers[sessionId := headers[sessionId].(title := ShortTitle(title.value))];
      }
      var count := |RowsOf(rows, sessionId)|;
      var turns := PairTurns(history);
      var newTurns := Drop(turns, count);
      InsertRows(sessionId, newTurns);
      r := GetSession(userId, sessionId);
    }

    /** The insert loop of `save_session`: one row per new turn, in order. */
    method InsertRows(sessionId: string, newRows: seq<Row>)
      modifies this
      ensures headers == old(headers)
      ensures rows == old(rows)[sessionId := RowsOf(old(rows), sessionId) + newRows]
    {
      var i := 0;
      rows := rows[sessionId := RowsOf(rows, sessionId)];
      assert RowsOf(old(rows), sessionId) + newRows[..0] == RowsOf(old(rows), sessionId);
      while i < |newRows|
        invariant 0 <= i <= |newRows|
        invariant headers == old(headers)
        invariant rows == old(rows)[sessionId := RowsOf(old(rows), sessionId) + newRows[..i]]
      {
        rows := rows[sessionId := rows[sessionId] + [newRows[i]]];
        assert newRows[..i + 1] == newRows[..i] + [newRows[i]];
        assert RowsOf(old(rows), sessionId) + newRows[..i] + [newRows[i]] ==
               RowsOf(old(rows), sessionId) + newRows[..i + 1];
        i := i + 1;
      }
      assert newRows[..i] == newRows;
    }

    /** `delete_session`: the header goes and its rows with it (`ON DELETE
        CASCADE`); true iff a header matched. */
    method DeleteSession(userId: string, sessionId: string) returns (deleted: bool)
      modifies this
      ensures deleted <==> old(Lookup(headers, rows, userId, sessionId)).Some?
      ensures headers == if deleted then old(headers) - {sessionId} else old(headers)
      ensures rows == if deleted then old(rows) - {sessionId} else old(rows)
    {
      deleted := sessionId in headers && headers[sessionId].userId == userId;
      if deleted {
        headers := headers - {sessionId};
        rows := rows - {sessionId};
      }
    }

    /** `rename_session`: the title is stored as given; true iff a header
        matched. */
    method RenameSession(userId: string, sessionId: string, newTitle: string) returns (renamed: bool)
      modifies this
      ensures renamed <==> old(Lookup(headers, rows, userId, sessionId)).Some?
      ensures headers == if renamed then old(headers)[sessionId := Header(userId, newTitle)] else old(headers)
      ensures rows == old(rows)
    {
      renamed := sessionId in headers && headers[sessionId].userId == userId;
      if renamed {
        headers := headers[sessionId := Header(userId, newTitle)];
      }
    }
  }

  /** The pairing loop of `save_session`, stepping through the history two
      items at a time. */
  method PairTurns(history: seq<Message>) returns (turns: seq<Row>)
    ensures turns == Turns(history)
  {
    turns := [];
    var i := 0;
    while i < |history|
      invariant 0 <= i <= |history| + 1 && i % 2 == 0
      invariant |turns| == i / 2
      invariant forall k :: 0 <= k < |turns| ==> turns[k] == TurnAt(history, 2 * k)
    {
      var q := history[i].content;
      var reply: Option<Message> := if i + 1 < |history| then Some(history[i + 1]) else None;
      var r := if reply.Some? then Some(reply.value.content) else None;
      var meta := if reply.Some? && reply.value.data.Some? && Truthy(reply.value.data.value)
                  then reply.value.data else None;
      turns := turns + [Row(q, r, meta)];
      i := i + 2;
    }
  }
}
