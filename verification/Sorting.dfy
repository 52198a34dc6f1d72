/** The stable sort the builders call, as insertion by a two-part key. */
module Sorting {
  datatype Key = Key(major: real, minor: int)

  type Keys = map<int, Key>

  predicate AtMost(a: Key, b: Key) {
    a.major < b.major || (a.major == b.major && a.minor <= b.minor)
  }

  ghost predicate Keyed(keys: Keys, s: seq<int>) {
    forall i :: 0 <= i < |s| ==> s[i] in keys
  }

  ghost predicate Sorted(keys: Keys, s: seq<int>)
    requires Keyed(keys, s)
  {
    forall i, j :: 0 <= i < j < |s| ==> AtMost(keys[s[i]], keys[s[j]])
  }

  lemma SortedAppend(keys: Keys, s: seq<int>, x: int)
    requires Keyed(keys, s) && Sorted(keys, s) && x in keys
    requires s != [] ==> AtMost(keys[s[|s| - 1]], keys[x])
    ensures Keyed(keys, s + [x]) && Sorted(keys, s + [x])
  {
    forall i, j | 0 <= i < j < |s + [x]| ensures AtMost(keys[(s + [x])[i]], keys[(s + [x])[j]]) {
      if j == |s| && i < |s| - 1 {
        assert AtMost(keys[s[i]], keys[s[|s| - 1]]);
      }
    }
  }

  /** Inserts "x" behind every element whose key is not greater. */
  function Insert(keys: Keys, s: seq<int>, x: int): (r: seq<int>)
    requires x in keys && Keyed(keys, s) && Sorted(keys, s)
    ensures multiset(r) == multiset(s) + multiset{x} && |r| == |s| + 1
    ensures Keyed(keys, r) && Sorted(keys, r)
    ensures r[|s|] == x || (s != [] && r[|s|] == s[|s| - 1])
  {
    if s == [] || AtMost(keys[s[|s| - 1]], keys[x]) then
      SortedAppend(keys, s, x);
      s + [x]
    else
      var last := s[|s| - 1];
      assert s == s[..|s| - 1] + [last];
      var r := Insert(keys, s[..|s| - 1], x);
      SortedAppend(keys, r, last);
      r + [last]
  }

  function SortBy(keys: Keys, s: seq<int>): (r: seq<int>)
    requires Keyed(keys, s)
    ensures multiset(r) == multiset(s) && |r| == |s|
    ensures Keyed(keys, r) && Sorted(keys, r)
  {
    if s == [] then [] else
      assert s == s[..|s| - 1] + [s[|s| - 1]];
      Insert(keys, SortBy(keys, s[..|s| - 1]), s[|s| - 1])
  }

  lemma SameMembers(s: seq<int>, r: seq<int>)
    requires multiset(r) == multiset(s)
    ensures forall x :: x in r <==> x in s
  {
    assert forall x :: x in r <==> x in multiset(r);
    assert forall x :: x in s <==> x in multiset(s);
  }

  lemma SameDistinct(s: seq<int>, r: seq<int>)
    requires multiset(r) == multiset(s)
    requires forall i, j :: 0 <= i < j < |s| ==> s[i] != s[j]
    ensures forall i, j :: 0 <= i < j < |r| ==> r[i] != r[j]
  {
    forall i, j | 0 <= i < j < |r| ensures r[i] != r[j] {
      if r[i] == r[j] {
        CountTwice(r, i, j);
        CountOnce(s, r[i]);
      }
    }
  }

  lemma CountTwice(r: seq<int>, i: nat, j: nat)
    requires i < j < |r| && r[i] == r[j]
    ensures multiset(r)[r[i]] >= 2
  {
    assert r == r[..j] + [r[j]] + r[j + 1..];
    assert r[i] in r[..j];
    assert multiset(r)[r[i]] == multiset(r[..j])[r[i]] + 1 + multiset(r[j + 1..])[r[i]];
  }

  lemma {:induction false} CountOnce(s: seq<int>, x: int)
    requires forall i, j :: 0 <= i < j < |s| ==> s[i] != s[j]
    ensures multiset(s)[x] <= 1
  {
    if s != [] {
      var n := |s| - 1;
      assert s == s[..n] + [s[n]];
      CountOnce(s[..n], x);
      assert s[n] !in s[..n];
    }
  }
}
