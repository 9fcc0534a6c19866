/** Ranking of scored records: `list.sort(key=final_score, reverse=True)`, which
    Python guarantees to be stable, followed by truncation to the limit. */
module Ranking {
  import opened Base
  import opened Scoring

  /** Final scores never increase along the list. */
  predicate SortedByScore(s: seq<SearchResult>) {
    forall i, j :: 0 <= i < j < |s| ==> s[i].finalScore >= s[j].finalScore
  }

  /** The records of s whose final score is k, in the order of s. */
  function WithScore(s: seq<SearchResult>, k: real): (r: seq<SearchResult>)
    ensures |r| <= |s|
    ensures forall x :: x in r ==> x in s && x.finalScore == k
  {
    if s == [] then []
    else if s[0].finalScore == k then [s[0]] + WithScore(s[1..], k)
    else WithScore(s[1..], k)
  }

  /** x placed in front of the first record that does not score more than x. */
  function Insert(x: SearchResult, s: seq<SearchResult>): seq<SearchResult> {
    if s == [] || x.finalScore >= s[0].finalScore then [x] + s
    else [s[0]] + Insert(x, s[1..])
  }

  /** The descending stable sort, as a reference definition: each record is
      placed in front of the later records it does not score below. */
  function SortByScore(s: seq<SearchResult>): seq<SearchResult> {
    if s == [] then [] else Insert(s[0], SortByScore(s[1..]))
  }

  /** Inserting adds x and nothing else. */
  lemma {:induction false} InsertPermutes(x: SearchResult, s: seq<SearchResult>)
    ensures multiset(Insert(x, s)) == multiset(s) + multiset{x}
    ensures |Insert(x, s)| == |s| + 1
    decreases |s|
  {
    if s != [] && x.finalScore < s[0].finalScore {
      InsertPermutes(x, s[1..]);
      assert s == [s[0]] + s[1..];
    }
  }

  /** A bound on every score survives inserting a record within it. */
  lemma {:induction false} InsertBounded(x: SearchResult, s: seq<SearchResult>, b: real)
    requires x.finalScore <= b
    requires forall i :: 0 <= i < |s| ==> s[i].finalScore <= b
    ensures forall i :: 0 <= i < |Insert(x, s)| ==> Insert(x, s)[i].finalScore <= b
    decreases |s|
  {
    if s != [] && x.finalScore < s[0].finalScore {
      InsertBounded(x, s[1..], b);
    }
  }

  /** Inserting into a sorted list keeps it sorted. */
  lemma {:induction false} InsertSorted(x: SearchResult, s: seq<SearchResult>)
    requires SortedByScore(s)
    ensures SortedByScore(Insert(x, s))
    decreases |s|
  {
    if s != [] && x.finalScore < s[0].finalScore {
      var t := Insert(x, s[1..]);
      InsertSorted(x, s[1..]);
      InsertBounded(x, s[1..], s[0].finalScore);
      var r := [s[0]] + t;
      assert forall i :: 1 <= i < |r| ==> r[i] == t[i - 1];
    }
  }

  /** Inserting x keeps the order among the records of every score, and x comes
      before the records that score as much as it does. */
  lemma {:induction false} InsertWithScore(x: SearchResult, s: seq<SearchResult>, k: real)
    ensures WithScore(Insert(x, s), k) ==
              (if x.finalScore == k then [x] + WithScore(s, k) else WithScore(s, k))
    decreases |s|
  {
    if s == [] || x.finalScore >= s[0].finalScore {
      assert ([x] + s)[1..] == s;
    } else {
      InsertWithScore(x, s[1..], k);
      assert ([s[0]] + Insert(x, s[1..]))[1..] == Insert(x, s[1..]);
    }
  }

  /** The sort orders by descending score and only rearranges. */
  lemma {:induction false} SortByScoreCorrect(s: seq<SearchResult>)
    ensures SortedByScore(SortByScore(s))
    ensures multiset(SortByScore(s)) == multiset(s)
    ensures |SortByScore(s)| == |s|
    decreases |s|
  {
    if s != [] {
      SortByScoreCorrect(s[1..]);
      InsertSorted(s[0], SortByScore(s[1..]));
      InsertPermutes(s[0], SortByScore(s[1..]));
      assert s == [s[0]] + s[1..];
    }
  }

  /** The sort is stable: records with equal scores keep their relative order. */
  lemma {:induction false} SortByScoreStable(s: seq<SearchResult>, k: real)
    ensures WithScore(SortByScore(s), k) == WithScore(s, k)
    decreases |s|
  {
    if s != [] {
      SortByScoreStable(s[1..], k);
      InsertWithScore(s[0], SortByScore(s[1..]), k);
    }
  }

  /** Any prefix of a sorted list is sorted. */
  lemma PrefixSorted(s: seq<SearchResult>, n: nat)
    requires SortedByScore(s) && n <= |s|
    ensures SortedByScore(s[..n])
  {
  }

  /** Among the records of one score, a prefix of a list keeps a prefix of them. */
  lemma {:induction false} PrefixWithScore(s: seq<SearchResult>, n: nat, k: real)
    requires n <= |s|
    ensures WithScore(s[..n], k) <= WithScore(s, k)
    decreases n
  {
    if n > 0 {
      assert s[..n][1..] == s[1..][..n - 1];
      PrefixWithScore(s[1..], n - 1, k);
    }
  }

  /** In a sorted list, every record of a prefix scores at least as much as
      every record after it. */
  lemma PrefixBeatsRest(t: seq<SearchResult>, m: nat)
    requires SortedByScore(t) && m <= |t|
    ensures forall x, y :: x in t[..m] && y in t[m..] ==> x.finalScore >= y.finalScore
  {
    forall x, y | x in t[..m] && y in t[m..]
      ensures x.finalScore >= y.finalScore
    {
      var i :| 0 <= i < m && t[..m][i] == x;
      var j :| 0 <= j < |t| - m && t[m..][j] == y;
      assert t[i] == x && t[m + j] == y;
    }
  }

  /** No record the cut to n leaves out scores more than a record it keeps. */
  lemma TopBeatsRest(s: seq<SearchResult>, n: int)
    ensures var r := PyTake(SortByScore(s), n);
      forall x, y :: x in multiset(r) && y in multiset(s) - multiset(r) ==> x.finalScore >= y.finalScore
  {
    var sorted := SortByScore(s);
    var r := PyTake(sorted, n);
    SortByScoreCorrect(s);
    assert sorted == r + sorted[|r|..];
    assert multiset(sorted) == multiset(r) + multiset(sorted[|r|..]);
    assert multiset(s) - multiset(r) == multiset(sorted[|r|..]);
    assert r == sorted[..|r|];
    PrefixBeatsRest(sorted, |r|);
  }

  /** The first n records of the sorted list (Python's `[:n]`): sorted, drawn
      from s, the best-scoring ones (no record left out scores more than a
      record kept), and for every score a prefix of s's records with that score. */
  lemma TopRanked(s: seq<SearchResult>, n: int)
    ensures var r := PyTake(SortByScore(s), n);
      && SortedByScore(r)
      && (n >= 0 ==> |r| == Min(n, |s|))
      && multiset(r) <= multiset(s)
      && (forall x, y :: x in multiset(r) && y in multiset(s) - multiset(r) ==> x.finalScore >= y.finalScore)
      && forall k :: WithScore(r, k) <= WithScore(s, k)
  {
    var sorted := SortByScore(s);
    var r := PyTake(sorted, n);
    SortByScoreCorrect(s);
    PrefixSorted(sorted, |r|);
    assert sorted == r + sorted[|r|..];
    assert multiset(sorted) == multiset(r) + multiset(sorted[|r|..]);
    TopBeatsRest(s, n);
    forall k | true
      ensures WithScore(r, k) <= WithScore(s, k)
    {
      PrefixWithScore(sorted, |r|, k);
      SortByScoreStable(s, k);
    }
  }
}
