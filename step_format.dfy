/** `format_step_text` (chat.py): the rewrite of the regular expression
    `(?<!\w)'([^']+)'(?!\w)` to `**\1**`, written as the left-to-right scan
    that `re.sub` performs. Lookarounds read the ORIGINAL text, so the scan
    keeps the whole string and a position. */
module StepFormat {
  import opened Wrappers
  import opened Text

  const Quote: char := '\''

  /** The quote at `i` may open: nothing or a non-word character before it. */
  predicate OpensAt(s: string, i: int) {
    0 <= i < |s| && s[i] == Quote && (i == 0 || !IsWordChar(s[i - 1]))
  }

  /** The quote at `j` may close: nothing or a non-word character after it. */
  predicate ClosesAt(s: string, j: int) {
    0 <= j < |s| && s[j] == Quote && (j + 1 == |s| || !IsWordChar(s[j + 1]))
  }

  /** The declarative meaning of the pattern: it matches `s[i..j+1]`, with
      group 1 the non-empty, quote-free text strictly between `i` and `j`. */
  ghost predicate RegexMatchAt(s: string, i: int, j: int) {
    OpensAt(s, i) && i + 1 < j && ClosesAt(s, j)
    && forall m :: i < m < j ==> s[m] != Quote
  }

  /** Index of the first quote at or after `k`, or `|s|` when there is none. */
  function NextQuote(s: string, k: nat): (j: nat)
    requires k <= |s|
    ensures k <= j <= |s|
    ensures j < |s| ==> s[j] == Quote
    decreases |s| - k
  {
    if k == |s| || s[k] == Quote then k else NextQuote(s, k + 1)
  }

  /** No quote lies between `k` and the next quote. */
  lemma {:induction false} NextQuoteSkips(s: string, k: nat)
    requires k <= |s|
    ensures forall m :: k <= m < NextQuote(s, k) ==> s[m] != Quote
    decreases |s| - k
  {
    if k < |s| && s[k] != Quote {
      NextQuoteSkips(s, k + 1);
    }
  }

  /** Where the pattern, tried at `i`, ends: `[^']+` is greedy but cannot pass
      a quote, so the only candidate closing quote is the next one. */
  function MatchEnd(s: string, i: nat): (r: Option<nat>)
    requires i < |s|
    ensures r.Some? ==> i + 1 < r.value < |s|
  {
    if !OpensAt(s, i) then None
    else
      var j := NextQuote(s, i + 1);
      if i + 1 < j && ClosesAt(s, j) then Some(j) else None
  }

  /** What the scan takes for a match is one. */
  lemma MatchEndSound(s: string, i: nat)
    requires i < |s|
    ensures MatchEnd(s, i).Some? ==> RegexMatchAt(s, i, MatchEnd(s, i).value)
  {
    if OpensAt(s, i) {
      NextQuoteSkips(s, i + 1);
    }
  }

  /** A match at `i` is the one the scan finds: the pattern has at most one
      match starting at any position. */
  lemma MatchEndComplete(s: string, i: nat, j: int)
    requires i < |s| && RegexMatchAt(s, i, j)
    ensures MatchEnd(s, i) == Some(j)
  {
    NextQuoteSkips(s, i + 1);
  }

  /** One step of the scan at `i`: what it emits, and where it resumes. A
      match becomes its group between `**` markers; any other character is
      copied. */
  function Piece(s: string, i: nat): (r: (string, nat))
    requires i < |s|
    ensures i < r.1 <= |s|
    ensures |r.0| >= r.1 - i
  {
    match MatchEnd(s, i)
    case Some(j) => ("**" + s[i + 1..j] + "**", j + 1)
    case None => ([s[i]], i + 1)
  }

  /** `re.sub` from position `i` on. */
  function FormatFrom(s: string, i: nat): string
    requires i <= |s|
    decreases |s| - i
  {
    if i == |s| then [] else Piece(s, i).0 + FormatFrom(s, Piece(s, i).1)
  }

  /** `format_step_text(text)` on a string. */
  function FormatStepText(s: string): string {
    FormatFrom(s, 0)
  }

  /** `format_step_text` on a value that may not be a string: `None` stays `None`. */
  function FormatOptText(t: Option<string>): (r: Option<string>)
    ensures r.None? <==> t.None?
    ensures t.Some? ==> r.value == FormatStepText(t.value)
  {
    match t
    case None => None
    case Some(s) => Some(FormatStepText(s))
  }

  // ---------------------------------------------------------------------
  // What the rewrite preserves.

  /** The text without quotes and asterisks: what a reader sees as words. */
  function Visible(s: string): (r: string)
    ensures |r| <= |s|
  {
    if s == [] then []
    else (if s[0] == Quote || s[0] == '*' then [] else [s[0]]) + Visible(s[1..])
  }

  lemma {:induction false} VisibleConcat(a: string, b: string)
    ensures Visible(a + b) == Visible(a) + Visible(b)
  {
    if a != [] {
      assert (a + b)[0] == a[0];
      assert (a + b)[1..] == a[1..] + b;
      VisibleConcat(a[1..], b);
    } else {
      assert a + b == b;
    }
  }

  lemma VisibleOfMarkers(t: string)
    ensures Visible("**" + t + "**") == Visible(t)
  {
    VisibleConcat("**" + t, "**");
    VisibleConcat("**", t);
    assert Visible("**") == [];
  }

  /** One step keeps what a reader sees of the text it consumes. */
  lemma PieceVisible(s: string, i: nat)
    requires i < |s|
    ensures Visible(Piece(s, i).0) == Visible(s[i..Piece(s, i).1])
  {
    match MatchEnd(s, i)
    case Some(j) =>
      VisibleOfMarkers(s[i + 1..j]);
      assert s[i..j + 1] == [s[i]] + s[i + 1..j] + [s[j]];
      VisibleConcat([s[i]] + s[i + 1..j], [s[j]]);
      VisibleConcat([s[i]], s[i + 1..j]);
    case None =>
      assert s[i..i + 1] == [s[i]];
  }

  /** Formatting only moves quotes and asterisks: every other character,
      casing included, comes out in the same order. */
  lemma {:induction false} FormatFromPreservesVisible(s: string, i: nat)
    requires i <= |s|
    ensures Visible(FormatFrom(s, i)) == Visible(s[i..])
    decreases |s| - i
  {
    if i < |s| {
      var (t, k) := Piece(s, i);
      FormatFromPreservesVisible(s, k);
      PieceVisible(s, i);
      VisibleConcat(t, FormatFrom(s, k));
      assert s[i..] == s[i..k] + s[k..];
      VisibleConcat(s[i..k], s[k..]);
    }
  }

  lemma FormatPreservesVisible(s: string)
    ensures Visible(FormatStepText(s)) == Visible(s)
  {
    FormatFromPreservesVisible(s, 0);
  }

  // ---------------------------------------------------------------------
  // When the rewrite changes nothing.

  /** The pattern matches nowhere at or after `i`. */
  ghost predicate NoMatchFrom(s: string, i: int) {
    forall p, j :: i <= p < |s| ==> !RegexMatchAt(s, p, j)
  }

  lemma FormatFromStep(s: string, i: nat)
    requires i < |s|
    ensures FormatFrom(s, i) == Piece(s, i).0 + FormatFrom(s, Piece(s, i).1)
  {
  }

  /** Where a match starts, its group is emitted in bold and the scan resumes after it. */
  lemma PieceAtMatch(s: string, i: nat, j: nat)
    requires i < |s| && RegexMatchAt(s, i, j)
    ensures Piece(s, i) == ("**" + s[i + 1..j] + "**", j + 1)
  {
    MatchEndComplete(s, i, j);
  }

  /** Where no match starts, one character is copied. */
  lemma PieceCopies(s: string, i: nat)
    requires i < |s| && forall j :: !RegexMatchAt(s, i, j)
    ensures Piece(s, i) == ([s[i]], i + 1)
  {
    MatchEndSound(s, i);
  }

  lemma {:induction false} FormatFromNoMatch(s: string, i: nat)
    requires i <= |s| && NoMatchFrom(s, i)
    ensures FormatFrom(s, i) == s[i..]
    decreases |s| - i
  {
    if i < |s| {
      PieceCopies(s, i);
      FormatFromNoMatch(s, i + 1);
      assert s[i..] == [s[i]] + s[i + 1..];
    }
  }

  lemma {:induction false} FormatFromGrows(s: string, i: nat)
    requires i <= |s|
    ensures |FormatFrom(s, i)| >= |s| - i
    decreases |s| - i
  {
    if i < |s| {
      FormatFromGrows(s, Piece(s, i).1);
    }
  }

  /** The scan reaches the first match `p` and rewrites it, which makes the
      text longer by two characters. */
  lemma {:induction false} FormatFromLeftmostMatch(s: string, i: nat, p: nat, j: nat)
    requires i <= p < |s| && RegexMatchAt(s, p, j)
    requires forall q :: i <= q < p ==> MatchEnd(s, q).None?
    ensures |FormatFrom(s, i)| > |s| - i
    decreases p - i
  {
    FormatFromStep(s, i);
    if i == p {
      PieceAtMatch(s, i, j);
      FormatFromGrows(s, j + 1);
    } else {
      FormatFromLeftmostMatch(s, i + 1, p, j);
    }
  }

  lemma {:induction false} LeftmostMatchExists(s: string, p0: nat, j0: nat)
    requires RegexMatchAt(s, p0, j0)
    ensures exists p: nat, j: nat ::
      && p < |s| && RegexMatchAt(s, p, j)
      && (forall q, k :: 0 <= q < p ==> !RegexMatchAt(s, q, k))
    decreases p0
  {
    if exists q: nat, k: nat :: q < p0 && RegexMatchAt(s, q, k) {
      var q: nat, k: nat :| q < p0 && RegexMatchAt(s, q, k);
      LeftmostMatchExists(s, q, k);
    }
  }

  /** The text comes back unchanged exactly when the pattern matches nowhere. */
  lemma FormatUnchangedIff(s: string)
    ensures FormatStepText(s) == s <==> NoMatchFrom(s, 0)
  {
    if NoMatchFrom(s, 0) {
      FormatFromNoMatch(s, 0);
    } else {
      var p0, j0 :| 0 <= p0 < |s| && RegexMatchAt(s, p0, j0);
      LeftmostMatchExists(s, p0, j0);
      var p: nat, j: nat :|
        && p < |s| && RegexMatchAt(s, p, j)
        && (forall q, k :: 0 <= q < p ==> !RegexMatchAt(s, q, k));
      forall q | 0 <= q < p
        ensures MatchEnd(s, q).None?
      {
        MatchEndSound(s, q);
      }
      FormatFromLeftmostMatch(s, 0, p, j);
    }
  }

  /** Apostrophes inside words ("you'll", "don't") never open a match, so a
      text whose every quote follows a word character is left as it is. */
  lemma ContractionsUnchanged(s: string)
    requires forall i :: 0 <= i < |s| && s[i] == Quote ==> i > 0 && IsWordChar(s[i - 1])
    ensures FormatStepText(s) == s
  {
    FormatUnchangedIff(s);
  }

  // ---------------------------------------------------------------------
  // What the rewrite produces.

  lemma AppendAssoc(a: string, b: string, c: string)
    ensures a + (b + c) == (a + b) + c
  {
  }

  /** A run without quotes is copied through unchanged. */
  lemma {:induction false} FormatFromCopiesQuoteFree(s: string, i: nat, k: nat)
    requires i <= k <= |s|
    requires forall m :: i <= m < k ==> s[m] != Quote
    ensures FormatFrom(s, i) == s[i..k] + FormatFrom(s, k)
    decreases k - i
  {
    if i < k {
      assert Piece(s, i) == ([s[i]], i + 1);
      FormatFromCopiesQuoteFree(s, i + 1, k);
      assert s[i..k] == [s[i]] + s[i + 1..k];
      AppendAssoc([s[i]], s[i + 1..k], FormatFrom(s, k));
    }
  }

  /** Where the pattern matches, the scan rewrites it. */
  lemma FormatAtMatch(s: string, i: nat, j: nat)
    requires i < |s| && RegexMatchAt(s, i, j)
    ensures FormatFrom(s, i) == "**" + s[i + 1..j] + "**" + FormatFrom(s, j + 1)
  {
    PieceAtMatch(s, i, j);
    FormatFromStep(s, i);
  }

  /** A text holding exactly one quoted term: that term becomes bold, its
      quotes removed, and everything around it is kept as it is. */
  lemma FormatSingleMatch(s: string, i: nat, j: nat)
    requires RegexMatchAt(s, i, j)
    requires forall m :: 0 <= m < i ==> s[m] != Quote
    requires forall m :: j < m < |s| ==> s[m] != Quote
    ensures FormatStepText(s) == s[..i] + "**" + s[i + 1..j] + "**" + s[j + 1..]
  {
    var tail := FormatFrom(s, j + 1);
    assert tail == s[j + 1..] by {
      FormatFromCopiesQuoteFree(s, j + 1, |s|);
      assert FormatFrom(s, |s|) == [];
      assert s[j + 1..|s|] + [] == s[j + 1..];
    }
    var bold := "**" + s[i + 1..j] + "**";
    var rest := FormatFrom(s, i);
    assert rest == bold + tail by {
      FormatAtMatch(s, i, j);
    }
    assert FormatFrom(s, 0) == s[..i] + rest by {
      FormatFromCopiesQuoteFree(s, 0, i);
      assert s[0..i] == s[..i];
    }
    assert s[..i] + (bold + tail) == s[..i] + bold + tail;
  }
}
