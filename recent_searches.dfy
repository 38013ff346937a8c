/** The search screen: a search term and the list of recent searches, newest
    first, without repeats and at most ten long. */
module RecentSearches {
  import opened Text
  import opened Lists
  import opened Wrappers

  const MaxRecent: nat := 10

  /** The first `n` elements of `s`, or all of them when there are fewer. */
  function Prefix<T>(s: seq<T>, n: nat): (r: seq<T>)
    ensures |r| <= n && |r| <= |s| && r == s[..|r|]
    ensures |s| <= n ==> r == s
    ensures |s| > n ==> |r| == n
  {
    if |s| <= n then s else s[..n]
  }

  /** `recent` after searching for `term`. */
  function PushRecent(recent: seq<string>, term: string): (r: seq<string>)
    ensures |r| <= MaxRecent
    ensures r != [] && r[0] == term
    ensures term !in r[1..]
    ensures SubseqOf(r[1..], recent)
    ensures |r| == MaxRecent || forall x :: x in recent && x != term ==> x in r
    ensures r[1..] == Prefix(Filter(recent, x => x != term), |r| - 1)
  {
    var rest := Filter(recent, x => x != term);
    FilterIsSubseq(recent, x => x != term);
    var r := Prefix([term] + rest, MaxRecent);
    assert r[1..] == rest[..|r| - 1];
    assert Prefix(rest, |r| - 1) == rest[..|r| - 1];
    PrefixIsSubseq(rest, |r| - 1);
    SubseqTrans(r[1..], rest, recent);
    r
  }

  /** A list without repeats stays without repeats. */
  lemma PushRecentNoDuplicates(recent: seq<string>, term: string)
    requires Distinct(recent)
    ensures Distinct(PushRecent(recent, term))
  {
    var r := PushRecent(recent, term);
    SubseqDistinct(r[1..], recent);
    forall i, j | 0 <= i < j < |r| ensures r[i] != r[j] {
      assert r[j] == r[1..][j - 1];
      if i > 0 { assert r[i] == r[1..][i - 1]; }
    }
  }

  /** Searching for the same term twice in a row is searching once. */
  lemma PushRecentIdempotent(recent: seq<string>, term: string)
    ensures PushRecent(PushRecent(recent, term), term) == PushRecent(recent, term)
  {
    var p := PushRecent(recent, term);
    var tail := p[1..];
    assert p == [term] + tail;
    FilterAppend([term], tail, x => x != term);
    assert Filter([term], x => x != term) == [];
    assert forall i :: 0 <= i < |tail| ==> tail[i] != term;
    FilterAllPass(tail, x => x != term);
    assert Filter(p, x => x != term) == tail;
  }

  /** The search screen's state. */
  class Busca {
    var searchTerm: string
    var recent: seq<string>

    constructor ()
      ensures searchTerm == "" && recent == []
    {
      searchTerm, recent := "", [];
    }

    /** Records the trimmed term, unless it is blank, and returns the term the
        home screen is opened with. */
    method DoSearch() returns (navigatedWith: Option<string>)
      modifies this
      ensures Trim(searchTerm) == "" ==> navigatedWith.None? && recent == old(recent)
      ensures Trim(searchTerm) != "" ==>
        navigatedWith == Some(Trim(searchTerm)) && recent == PushRecent(old(recent), Trim(searchTerm))
      ensures searchTerm == old(searchTerm)
    {
      var term := Trim(searchTerm);
      if term == "" {
        return None;
      }
      recent := PushRecent(recent, term);
      return Some(term);
    }

    method SelectRecent(term: string) returns (navigatedWith: Option<string>)
      modifies this
      ensures searchTerm == term
      ensures Trim(term) == "" ==> navigatedWith.None? && recent == old(recent)
      ensures Trim(term) != "" ==> navigatedWith == Some(Trim(term)) && recent == PushRecent(old(recent), Trim(term))
    {
      searchTerm := term;
      navigatedWith := DoSearch();
    }
  }
}
