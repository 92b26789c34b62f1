/** Python's `sorted(items, key=...)` on a string key: the result is a
    permutation of the input, ordered by the key. */
module Sorting {
  import opened Text

  predicate SortedBy<T>(s: seq<T>, key: T -> string) {
    forall i, j :: 0 <= i < j < |s| ==> AtMost(key(s[i]), key(s[j]))
  }

  /** Places `x` before the first element whose key is not smaller, so that
      `x` lands before any element with an equal key. */
  function InsertBy<T(==)>(x: T, s: seq<T>, key: T -> string): (r: seq<T>)
    requires SortedBy(s, key)
    ensures SortedBy(r, key)
    ensures multiset(r) == multiset(s) + multiset{x}
  {
    if s == [] then [x]
    else if AtMost(key(x), key(s[0])) then
      BelowSortedHead(x, s, key);
      PrependSorted(x, s, key);
      [x] + s
    else
      var rest := InsertBy(x, s[1..], key);
      assert s == [s[0]] + s[1..];
      HeadBelowInsertion(x, s, rest, key);
      PrependSorted(s[0], rest, key);
      [s[0]] + rest
  }

  lemma PrependSorted<T>(y: T, s: seq<T>, key: T -> string)
    requires SortedBy(s, key)
    requires forall j :: 0 <= j < |s| ==> AtMost(key(y), key(s[j]))
    ensures SortedBy([y] + s, key)
  {
    var t := [y] + s;
    forall i, j | 0 <= i < j < |t|
      ensures AtMost(key(t[i]), key(t[j]))
    {
      assert t[j] == s[j - 1];
      if i > 0 {
        assert t[i] == s[i - 1];
      }
    }
  }

  lemma BelowSortedHead<T>(x: T, s: seq<T>, key: T -> string)
    requires SortedBy(s, key) && s != []
    requires AtMost(key(x), key(s[0]))
    ensures forall j :: 0 <= j < |s| ==> AtMost(key(x), key(s[j]))
  {
    forall j | 0 < j < |s|
      ensures AtMost(key(x), key(s[j]))
    {
      AtMostTransitive(key(x), key(s[0]), key(s[j]));
    }
  }

  lemma HeadBelowInsertion<T>(x: T, s: seq<T>, rest: seq<T>, key: T -> string)
    requires SortedBy(s, key) && s != []
    requires !AtMost(key(x), key(s[0]))
    requires multiset(rest) == multiset(s[1..]) + multiset{x}
    ensures forall j :: 0 <= j < |rest| ==> AtMost(key(s[0]), key(rest[j]))
  {
    AtMostTotal(key(x), key(s[0]));
    forall j | 0 <= j < |rest|
      ensures AtMost(key(s[0]), key(rest[j]))
    {
      assert rest[j] in multiset(rest);
      if rest[j] != x {
        assert rest[j] in multiset(s[1..]);
        var k :| 0 <= k < |s[1..]| && s[1..][k] == rest[j];
        assert s[k + 1] == rest[j];
      }
    }
  }

  /** Insertion sort by `key`; equal keys keep their input order. */
  function SortBy<T(==)>(s: seq<T>, key: T -> string): (r: seq<T>)
    ensures SortedBy(r, key)
    ensures multiset(r) == multiset(s)
  {
    if s == [] then []
    else
      assert s == [s[0]] + s[1..];
      InsertBy(s[0], SortBy(s[1..], key), key)
  }
}
