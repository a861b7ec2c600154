/**
 * The recent-searches list of src/components/ProductSearch.tsx: the newest
 * term first, no repeats, at most five entries (the browser storage that
 * persists it is not modelled).
 */
module SearchHistory {
  import opened Wrappers
  import Text
  import Seqs

  const MaxEntries := 5

  function Min(a: nat, b: nat): nat { if a <= b then a else b }

  /**
   * `saveToHistory`: the term goes to the front, its older copies are
   * dropped, the other terms keep their order, and the list is cut to five:
   * the entries after the first are the leading other terms, as many as fit.
   */
  function Save(history: seq<string>, term: string): (r: seq<string>)
    ensures 0 < |r| <= MaxEntries
    ensures |r| == Min(MaxEntries, 1 + Seqs.Count(history, (h: string) => h != term))
    ensures r[1..] <= Seqs.Filter(history, (h: string) => h != term)
    ensures r[0] == term
    ensures forall i :: 1 <= i < |r| ==> r[i] != term
    ensures Seqs.IsSubsequence(r[1..], history)
    ensures forall x :: x in history && x != term && Seqs.Count(history, (h: string) => h != term) < MaxEntries ==> x in r
  {
    var rest := Seqs.Filter(history, (h: string) => h != term);
    var r := ([term] + rest)[..Min(MaxEntries, 1 + |rest|)];
    assert ([term] + rest)[1..] == rest;
    assert r[1..] == ([term] + rest)[1..|r|];
    assert r[1..] == rest[..|r| - 1];
    Seqs.SubsequencePrefix(rest, history, |r| - 1);
    Seqs.FilterLength(history, (h: string) => h != term);
    assert |rest| < MaxEntries ==> r == [term] + rest;
    r
  }

  /** Saving the same term twice in a row is saving it once. */
  lemma SaveIdempotent(history: seq<string>, term: string)
    ensures Save(Save(history, term), term) == Save(history, term)
  {
    var once := Save(history, term);
    var rest := once[1..];
    Seqs.FilterAllPass(rest, (h: string) => h != term);
    assert once == [term] + rest;
    assert Seqs.Filter(once, (h: string) => h != term) == Seqs.Filter(rest, (h: string) => h != term);
  }

  /** A list without repeats stays without repeats. */
  lemma SaveKeepsDistinct(history: seq<string>, term: string)
    requires forall i, j :: 0 <= i < j < |history| ==> history[i] != history[j]
    ensures var r := Save(history, term); forall i, j :: 0 <= i < j < |r| ==> r[i] != r[j]
  {
    var r := Save(history, term);
    forall i, j | 0 <= i < j < |r|
      ensures r[i] != r[j]
    {
      if i > 0 {
        SubsequenceDistinct(r[1..], history, i - 1, j - 1);
      }
    }
  }

  /** Two positions of a subsequence of a list without repeats hold different values. */
  lemma {:induction false} SubsequenceDistinct(a: seq<string>, b: seq<string>, i: nat, j: nat)
    requires Seqs.IsSubsequence(a, b)
    requires forall x, y :: 0 <= x < y < |b| ==> b[x] != b[y]
    requires i < j < |a|
    ensures a[i] != a[j]
    decreases |b|
  {
    if a[0] == b[0] && Seqs.IsSubsequence(a[1..], b[1..]) {
      if i == 0 {
        SubsequenceMember(a[1..], b[1..], j - 1);
        var y :| 0 <= y < |b[1..]| && b[1..][y] == a[j];
        assert b[0] != b[y + 1];
      } else {
        SubsequenceDistinct(a[1..], b[1..], i - 1, j - 1);
      }
    } else {
      SubsequenceDistinct(a, b[1..], i, j);
    }
  }

  /** Every element of a subsequence occurs in the sequence. */
  lemma {:induction false} SubsequenceMember(a: seq<string>, b: seq<string>, k: nat)
    requires Seqs.IsSubsequence(a, b) && k < |a|
    ensures exists y :: 0 <= y < |b| && b[y] == a[k]
    decreases |b|
  {
    if a[0] == b[0] && Seqs.IsSubsequence(a[1..], b[1..]) {
      if k == 0 {
        assert b[0] == a[0];
      } else {
        SubsequenceMember(a[1..], b[1..], k - 1);
        var y :| 0 <= y < |b[1..]| && b[1..][y] == a[1..][k - 1];
        assert b[y + 1] == a[k];
      }
    } else {
      SubsequenceMember(a, b[1..], k);
      var y :| 0 <= y < |b[1..]| && b[1..][y] == a[k];
      assert b[y + 1] == a[k];
    }
  }

  /**
   * `handleSearch`: a blank query does nothing; otherwise the trimmed query
   * is searched for and saved.
   */
  function HandleSearch(query: string, history: seq<string>): (r: (Option<string>, seq<string>))
    ensures Text.IsBlank(query) ==> r == (None, history)
    ensures !Text.IsBlank(query) ==> r.0 == Some(Text.Trim(query)) && r.1 == Save(history, Text.Trim(query))
    ensures r.0.Some? ==> |r.0.value| > 0 && r.1[0] == r.0.value
  {
    if Text.IsBlank(query) then (None, history)
    else (Some(Text.Trim(query)), Save(history, Text.Trim(query)))
  }

  /** A search is saved under its trimmed form, so padding never creates a second entry. */
  lemma PaddingDoesNotDuplicate(history: seq<string>, query: string, padded: string)
    requires !Text.IsBlank(query) && Text.Trim(padded) == Text.Trim(query)
    ensures HandleSearch(padded, HandleSearch(query, history).1).1 == HandleSearch(query, history).1
  {
    SaveIdempotent(history, Text.Trim(query));
  }

  /** `clearHistory`. */
  function Clear(history: seq<string>): (r: seq<string>)
    ensures |r| == 0
  {
    []
  }
}
