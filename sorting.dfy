/**
 * Swift's `sorted(by:)` with a "greater than" comparison on one integer
 * key. Swift does not promise a stable sort, so what the views rely on is
 * stated without an order among equal keys: the result is ordered by the
 * key, largest first, and is a permutation of the input. The insertion
 * sort here is one such result.
 */
module Sorting {
  predicate Descending<T>(key: T -> int, s: seq<T>) {
    forall i, j :: 0 <= i < j < |s| ==> key(s[i]) >= key(s[j])
  }

  function InsertDescending<T(==)>(key: T -> int, x: T, s: seq<T>): (r: seq<T>)
    requires Descending(key, s)
    ensures Descending(key, r) && multiset(r) == multiset(s) + multiset{x}
  {
    if s == [] then [x]
    else if key(x) >= key(s[0]) then [x] + s
    else
      var rest := InsertDescending(key, x, s[1..]);
      PrependLargest(key, x, s, rest);
      [s[0]] + rest
  }

  /** The head of `s`, which outranks `x`, may lead any descending arrangement of the rest of `s` and `x`. */
  lemma PrependLargest<T>(key: T -> int, x: T, s: seq<T>, rest: seq<T>)
    requires s != [] && Descending(key, s) && key(x) < key(s[0])
    requires Descending(key, rest) && multiset(rest) == multiset(s[1..]) + multiset{x}
    ensures Descending(key, [s[0]] + rest) && multiset([s[0]] + rest) == multiset(s) + multiset{x}
  {
    assert s == [s[0]] + s[1..];
    forall i | 0 <= i < |rest|
      ensures key(rest[i]) <= key(s[0])
    {
      assert rest[i] in multiset(rest);
      if rest[i] != x {
        assert rest[i] in s[1..];
      }
    }
  }

  function SortDescending<T(==)>(key: T -> int, s: seq<T>): (r: seq<T>)
    ensures Descending(key, r) && multiset(r) == multiset(s)
  {
    if s == [] then []
    else
      assert s == s[..|s| - 1] + [s[|s| - 1]];
      InsertDescending(key, s[|s| - 1], SortDescending(key, s[..|s| - 1]))
  }
}
