/**
 * `ORDER BY <integer column>` over a table held as a sequence of rows: a
 * stable sort by an integer key. Rows with equal keys keep their stored
 * order (the database leaves that order open; see the README).
 */
module RowOrder {

  predicate SortedBy<T>(s: seq<T>, key: T -> int) {
    forall i :: 0 < i < |s| ==> key(s[i - 1]) <= key(s[i])
  }

  function InsertBy<T>(x: T, s: seq<T>, key: T -> int): (r: seq<T>)
    requires SortedBy(s, key)
    ensures SortedBy(r, key)
    ensures multiset(r) == multiset(s) + multiset{x}
    ensures |r| == |s| + 1
    ensures r[0] == x || (|s| > 0 && r[0] == s[0])
  {
    if |s| == 0 || key(x) <= key(s[0]) then [x] + s
    else
      assert s == [s[0]] + s[1..];
      [s[0]] + InsertBy(x, s[1..], key)
  }

  /** The rows ordered by `key`, equal keys in stored order. */
  function OrderBy<T>(s: seq<T>, key: T -> int): (r: seq<T>)
    ensures SortedBy(r, key)
    ensures multiset(r) == multiset(s)
    ensures |r| == |s|
  {
    if |s| == 0 then []
    else
      assert s == [s[0]] + s[1..];
      InsertBy(s[0], OrderBy(s[1..], key), key)
  }

  /** Rows already in key order come back as they are. */
  lemma {:induction false} OrderByOfSorted<T>(s: seq<T>, key: T -> int)
    requires SortedBy(s, key)
    ensures OrderBy(s, key) == s
  {
    if |s| > 0 {
      assert SortedBy(s[1..], key);
      OrderByOfSorted(s[1..], key);
    }
  }
}
