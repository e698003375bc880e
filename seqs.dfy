/** Order-preserving deduplication ("first occurrence wins"), the idiom
    `if x not in seen: out.append(x)` that several components repeat. */
module Seqs {

  predicate Distinct<T(==)>(s: seq<T>) {
    forall i, j :: 0 <= i < j < |s| ==> s[i] != s[j]
  }

  /** Position of the first occurrence of `x` in `s`. */
  function FirstIndex<T(==)>(s: seq<T>, x: T): (i: nat)
    requires x in s
    ensures i < |s| && s[i] == x && x !in s[..i]
  {
    if s[0] == x then 0 else FirstIndex(s[1..], x) + 1
  }

  /** `s` with every repeated item dropped, keeping first occurrences in order. */
  function Dedup<T(==,!new)>(s: seq<T>): (r: seq<T>)
    ensures Distinct(r)
    ensures forall x :: x in r <==> x in s
    ensures |r| <= |s|
    decreases |s|
  {
    if s == [] then []
    else
      var d := Dedup(s[..|s| - 1]);
      assert forall x :: x in s <==> x in s[..|s| - 1] || x == s[|s| - 1];
      if s[|s| - 1] in d then d else d + [s[|s| - 1]]
  }

  /** One more item: the step the append loops take. */
  lemma DedupSnoc<T(!new)>(s: seq<T>, x: T)
    ensures Dedup(s + [x]) == if x in Dedup(s) then Dedup(s) else Dedup(s) + [x]
  {
    assert (s + [x])[..|s|] == s;
  }

  lemma FirstIndexPrefix<T>(s: seq<T>, k: nat, x: T)
    requires k <= |s| && x in s[..k]
    ensures x in s && FirstIndex(s[..k], x) == FirstIndex(s, x)
  {
    var i := FirstIndex(s[..k], x);
    var j := FirstIndex(s, x);
    assert s[..k][..i] == s[..i];
  }

  /** The kept items appear in the order of their first occurrence in `s`. */
  lemma {:induction false} DedupFirstOccurrenceOrder<T(!new)>(s: seq<T>)
    ensures forall i, j :: 0 <= i < j < |Dedup(s)| ==>
      FirstIndex(s, Dedup(s)[i]) < FirstIndex(s, Dedup(s)[j])
  {
    if s != [] {
      var p := s[..|s| - 1];
      var x := s[|s| - 1];
      DedupFirstOccurrenceOrder(p);
      var d := Dedup(p);
      assert s[..|s| - 1] == p;
      forall y | y in d ensures FirstIndex(s, y) == FirstIndex(p, y) {
        FirstIndexPrefix(s, |s| - 1, y);
      }
      if x !in d {
        assert x !in p;
        assert FirstIndex(s, x) == |s| - 1;
        forall i | 0 <= i < |d| ensures FirstIndex(s, Dedup(s)[i]) < FirstIndex(s, x) {
          assert Dedup(s)[i] == d[i];
          assert d[i] in p;
          FirstIndexPrefix(s, |s| - 1, d[i]);
        }
      }
    }
  }

  /** Deduplicating a list that has no repeats changes nothing. */
  lemma {:induction false} DedupOfDistinct<T(!new)>(s: seq<T>)
    requires Distinct(s)
    ensures Dedup(s) == s
  {
    if s != [] {
      var p := s[..|s| - 1];
      assert Distinct(p);
      DedupOfDistinct(p);
      assert s[|s| - 1] !in p;
      assert p + [s[|s| - 1]] == s;
    }
  }
}
