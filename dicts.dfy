/** Python `dict[str, str]` values as the config flow uses them: entries in
    insertion order, each key at most once, and the loop that fills a dict
    from a list keeping the first value seen for each key. */
module Dicts {
  import opened Wrappers
  import opened Sequences

  type Entry = (string, string)

  /** A dict as its `items()`, in insertion order. */
  type Dict = seq<Entry>

  predicate DistinctKeys(d: Dict) {
    forall i, j :: 0 <= i < j < |d| ==> d[i].0 != d[j].0
  }

  function Keys(d: Dict): set<string> {
    set i | 0 <= i < |d| :: d[i].0
  }

  /** `d.get(key)`. */
  function Get(d: Dict, key: string): (r: Option<string>)
    ensures r.Some? <==> key in Keys(d)
    ensures r.Some? ==> (key, r.value) in d
    ensures DistinctKeys(d) ==> forall i :: 0 <= i < |d| && d[i].0 == key ==> r == Some(d[i].1)
  {
    if d == [] then None
    else if d[0].0 == key then Some(d[0].1)
    else
      assert forall i :: 1 <= i < |d| ==> d[i] == d[1..][i - 1];
      Get(d[1..], key)
  }

  /** A dict comprehension with a condition keeps each key at most once. */
  lemma {:induction false} KeepKeepsDistinctKeys(d: Dict, p: Entry -> bool)
    requires DistinctKeys(d)
    ensures DistinctKeys(Keep(d, p))
  {
    if d != [] {
      KeepKeepsDistinctKeys(d[1..], p);
      var rest := Keep(d[1..], p);
      if p(d[0]) {
        var r := [d[0]] + rest;
        forall i, j | 0 <= i < j < |r|
          ensures r[i].0 != r[j].0
        {
          assert r[j] == rest[j - 1] && r[j] in d[1..];
          if i == 0 {
            var k :| 0 <= k < |d[1..]| && d[1..][k] == r[j];
            assert d[k + 1] == r[j];
          }
        }
      }
    }
  }

  /** The loop
        for x in xs:
          if <x gives an entry (key, value)> and key not in d: d[key] = value
      starting from an empty dict, written from the last element back. */
  function Project<T>(xs: seq<T>, entryOf: T -> Option<Entry>): (d: Dict)
    ensures DistinctKeys(d)
    ensures forall key :: key in Keys(d) <==>
      exists i :: 0 <= i < |xs| && entryOf(xs[i]).Some? && entryOf(xs[i]).value.0 == key
  {
    if xs == [] then []
    else
      var before := Project(xs[..|xs| - 1], entryOf);
      assert forall i :: 0 <= i < |xs| - 1 ==> xs[..|xs| - 1][i] == xs[i];
      match entryOf(xs[|xs| - 1])
      case None => before
      case Some(p) =>
        if p.0 in Keys(before) then before
        else
          KeysAppend(before, p);
          before + [p]
  }

  lemma KeysAppend(d: Dict, p: Entry)
    ensures Keys(d + [p]) == Keys(d) + {p.0}
  {
    var e := d + [p];
    assert forall i :: 0 <= i < |d| ==> e[i] == d[i];
    assert e[|d|] == p;
  }

  /** First seen wins: the entry of the first element that gives a key is
      the entry for that key. */
  lemma {:induction false} ProjectFirstWins<T>(xs: seq<T>, entryOf: T -> Option<Entry>, i: nat)
    requires i < |xs| && entryOf(xs[i]).Some?
    requires forall j :: 0 <= j < i && entryOf(xs[j]).Some? ==> entryOf(xs[j]).value.0 != entryOf(xs[i]).value.0
    ensures entryOf(xs[i]).value in Project(xs, entryOf)
  {
    var prefix := xs[..|xs| - 1];
    assert forall j :: 0 <= j < |xs| - 1 ==> prefix[j] == xs[j];
    if i < |xs| - 1 {
      ProjectFirstWins(prefix, entryOf, i);
    } else {
      var p := entryOf(xs[i]).value;
      assert forall j :: 0 <= j < |prefix| && entryOf(prefix[j]).Some? ==> entryOf(prefix[j]).value.0 != p.0;
      assert p.0 !in Keys(Project(prefix, entryOf));
    }
  }

  /** A dict never holds two entries with the same key, so an entry occurs
      at most once. */
  lemma {:induction false} DistinctKeysOccurOnce(d: Dict, e: Entry)
    requires DistinctKeys(d)
    ensures multiset(d)[e] <= 1
  {
    if d != [] {
      assert d == [d[0]] + d[1..];
      DistinctKeysOccurOnce(d[1..], e);
      if e == d[0] {
        assert e !in d[1..];
      }
    }
  }

  lemma RepeatedEntryOccursTwice(s: Dict, i: nat, j: nat)
    requires i < j < |s| && s[i] == s[j]
    ensures multiset(s)[s[i]] >= 2
  {
    assert s == s[..j] + [s[j]] + s[j + 1..];
    assert s[i] in s[..j];
  }

  /** Reordering a dict's entries (as `sorted(d.items())` does) keeps every
      key once. */
  lemma PermutationKeepsDistinctKeys(a: Dict, b: Dict)
    requires multiset(a) == multiset(b) && DistinctKeys(a)
    ensures DistinctKeys(b)
  {
    forall i, j | 0 <= i < j < |b|
      ensures b[i].0 != b[j].0
    {
      if b[i].0 == b[j].0 {
        assert b[i] in multiset(a) && b[j] in multiset(a);
        var p :| 0 <= p < |a| && a[p] == b[i];
        var q :| 0 <= q < |a| && a[q] == b[j];
        RepeatedEntryOccursTwice(b, i, j);
        DistinctKeysOccurOnce(a, b[i]);
      }
    }
  }

  /** A reordering of a dict's entries (such as `sorted(d.items(), ...)`)
      lists every entry once, and looking up the key of a listed entry gives
      back its value. */
  lemma PermutedEntries(d: Dict, s: Dict)
    requires DistinctKeys(d) && multiset(s) == multiset(d)
    ensures DistinctKeys(s)
    ensures forall k :: 0 <= k < |s| ==> Get(d, s[k].0) == Some(s[k].1)
    ensures forall e :: e in d ==> e in s
  {
    PermutationKeepsDistinctKeys(d, s);
    forall k | 0 <= k < |s|
      ensures Get(d, s[k].0) == Some(s[k].1)
    {
      assert s[k] in multiset(d);
      var i :| 0 <= i < |d| && d[i] == s[k];
    }
    forall e | e in d
      ensures e in s
    {
      assert e in multiset(s);
    }
  }
}
