/**
 * `toList().sortedByDescending { it.second }` and `take(5)` over
 * (name, count) pairs, as the statistics screen orders its rows.
 */
module Ranking {

  type Entry = (string, int)

  /** Counts never increase along the sequence. */
  predicate Descending(s: seq<Entry>) {
    forall i, j :: 0 <= i < j < |s| ==> s[i].1 >= s[j].1
  }

  /** No count in `s` exceeds `bound`. */
  predicate AtMost(s: seq<Entry>, bound: int) {
    forall k :: 0 <= k < |s| ==> s[k].1 <= bound
  }

  /**
   * Places `e` after every element whose count is at least its own, so equal
   * counts keep their earlier order (the sort is stable).
   */
  function Insert(e: Entry, s: seq<Entry>): seq<Entry> {
    if s == [] then [e]
    else if s[0].1 >= e.1 then [s[0]] + Insert(e, s[1..])
    else [e] + s
  }

  /** Inserting adds exactly the one entry. */
  lemma {:induction false} InsertCounts(e: Entry, s: seq<Entry>)
    ensures multiset(Insert(e, s)) == multiset(s) + multiset{e}
    ensures |Insert(e, s)| == |s| + 1
  {
    if s != [] && s[0].1 >= e.1 {
      InsertCounts(e, s[1..]);
      assert s == [s[0]] + s[1..];
    }
  }

  /** Inserting an entry under a bound keeps every count under it. */
  lemma {:induction false} InsertBound(e: Entry, s: seq<Entry>, bound: int)
    requires AtMost(s, bound) && e.1 <= bound
    ensures AtMost(Insert(e, s), bound)
  {
    if s != [] && s[0].1 >= e.1 {
      InsertBound(e, s[1..], bound);
    }
  }

  /** Inserting into a non-increasing list keeps it non-increasing. */
  lemma {:induction false} InsertFacts(e: Entry, s: seq<Entry>)
    requires Descending(s)
    ensures Descending(Insert(e, s))
    ensures multiset(Insert(e, s)) == multiset(s) + multiset{e}
    ensures |Insert(e, s)| == |s| + 1
  {
    InsertCounts(e, s);
    if s != [] && s[0].1 >= e.1 {
      InsertFacts(e, s[1..]);
      InsertBound(e, s[1..], s[0].1);
    }
  }

  /** `sortedByDescending { it.second }`: an ordering of `s` by non-increasing count. */
  function SortDescending(s: seq<Entry>): (r: seq<Entry>)
    ensures Descending(r)
    ensures multiset(r) == multiset(s)
    ensures |r| == |s|
  {
    if s == [] then []
    else
      var n := |s| - 1;
      var sorted := SortDescending(s[..n]);
      InsertFacts(s[n], sorted);
      assert s == s[..n] + [s[n]];
      Insert(s[n], sorted)
  }

  const TOP_COUNT := 5

  /**
   * `sortedByDescending { it.second }.take(5)`: at most five entries, taken
   * from `s`, in non-increasing order; every entry left out has a count no
   * higher than the last one kept.
   */
  function TopFive(s: seq<Entry>): (r: seq<Entry>)
    ensures |r| == if |s| < TOP_COUNT then |s| else TOP_COUNT
    ensures Descending(r)
    ensures multiset(r) <= multiset(s)
    ensures forall x :: x in s && x !in r ==> r != [] && x.1 <= r[|r| - 1].1
  {
    var sorted := SortDescending(s);
    var k := if |s| < TOP_COUNT then |s| else TOP_COUNT;
    TopFiveBound(s, sorted, k);
    sorted[..k]
  }

  lemma TopFiveBound(s: seq<Entry>, sorted: seq<Entry>, k: nat)
    requires Descending(sorted) && multiset(sorted) == multiset(s)
    requires k <= |sorted| && (k == |sorted| || k > 0)
    ensures multiset(sorted[..k]) <= multiset(s)
    ensures forall x :: x in s && x !in sorted[..k] ==> k > 0 && x.1 <= sorted[k - 1].1
  {
    assert sorted == sorted[..k] + sorted[k..];
    forall x | x in s && x !in sorted[..k]
      ensures k > 0 && x.1 <= sorted[k - 1].1
    {
      assert x in multiset(s);
      var i :| 0 <= i < |sorted| && sorted[i] == x;
      assert i >= k;
    }
  }
}
