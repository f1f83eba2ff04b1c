/**
  The sorts the program delegates to its platform (`Array.prototype.sort` with a
  numeric comparator, MongoDB's `.sort({ Date: ... })`), modelled as one stable
  insertion sort by an integer key. A descending sort is a sort by the negated key.
 */
module Sorting {

  predicate SortedBy<T(!new)>(s: seq<T>, key: T -> int) {
    forall i, j :: 0 <= i < j < |s| ==> key(s[i]) <= key(s[j])
  }

  /** No two elements share a key. */
  predicate DistinctKeys<T(!new)>(s: seq<T>, key: T -> int) {
    forall i, j :: 0 <= i < j < |s| ==> key(s[i]) != key(s[j])
  }

  /** Inserts `x` in front of the first element whose key is not smaller. */
  function InsertBy<T(!new)>(x: T, s: seq<T>, key: T -> int): (r: seq<T>)
    requires SortedBy(s, key)
    ensures SortedBy(r, key)
    ensures |r| == |s| + 1
    ensures r[0] == x || (s != [] && r[0] == s[0])
  {
    if s == [] then [x]
    else if key(x) <= key(s[0]) then [x] + s
    else
      var rest := InsertBy(x, s[1..], key);
      assert key(s[0]) <= key(rest[0]);
      [s[0]] + rest
  }

  /** A sorted rearrangement of `s` (that it is a permutation is SortByPermutes). */
  function SortBy<T(!new)>(s: seq<T>, key: T -> int): (r: seq<T>)
    ensures SortedBy(r, key)
    ensures |r| == |s|
  {
    if s == [] then [] else InsertBy(s[0], SortBy(s[1..], key), key)
  }

  lemma {:induction false} InsertByPermutes<T(!new)>(x: T, s: seq<T>, key: T -> int)
    requires SortedBy(s, key)
    ensures multiset(InsertBy(x, s, key)) == multiset(s) + multiset{x}
  {
    if s != [] && key(x) > key(s[0]) {
      var rest := InsertBy(x, s[1..], key);
      InsertByPermutes(x, s[1..], key);
      assert s == [s[0]] + s[1..];
      assert multiset(s) == multiset{s[0]} + multiset(s[1..]);
      assert InsertBy(x, s, key) == [s[0]] + rest;
      assert multiset([s[0]] + rest) == multiset{s[0]} + multiset(rest);
    } else if s != [] {
      assert InsertBy(x, s, key) == [x] + s;
    }
  }

  /** The sort neither loses nor invents an element. */
  lemma {:induction false} SortByPermutes<T(!new)>(s: seq<T>, key: T -> int)
    ensures multiset(SortBy(s, key)) == multiset(s)
  {
    if s != [] {
      SortByPermutes(s[1..], key);
      InsertByPermutes(s[0], SortBy(s[1..], key), key);
      assert s == [s[0]] + s[1..];
    }
  }

  lemma ElementsOfPermutation<T(!new)>(r: seq<T>, s: seq<T>)
    requires multiset(r) == multiset(s)
    ensures forall i :: 0 <= i < |r| ==> r[i] in s
  {
    forall i | 0 <= i < |r| ensures r[i] in s {
      assert r[i] in multiset(r);
    }
  }

  /** The first `n` elements of the sorted sequence are taken from the input, all of
      it when `n` is its length, and every element whose key is below that of the
      last one taken is among them. */
  lemma SortedPrefixKeepsLowest<T(!new)>(s: seq<T>, key: T -> int, n: nat)
    requires n <= |s|
    ensures multiset(SortBy(s, key)[..n]) <= multiset(s)
    ensures n == |s| ==> multiset(SortBy(s, key)[..n]) == multiset(s)
    ensures n > 0 ==> forall t :: t in s && key(t) < key(SortBy(s, key)[n - 1]) ==> t in SortBy(s, key)[..n]
  {
    var sorted := SortBy(s, key);
    SortByPermutes(s, key);
    assert sorted == sorted[..n] + sorted[n..];
    assert multiset(sorted) == multiset(sorted[..n]) + multiset(sorted[n..]);
    if n > 0 {
      forall t | t in s && key(t) < key(sorted[n - 1]) ensures t in sorted[..n] {
        assert t in multiset(sorted);
        LowerKeyInPrefix(sorted, key, n, t);
      }
    }
  }

  lemma LowerKeyInPrefix<T(!new)>(sorted: seq<T>, key: T -> int, n: nat, t: T)
    requires SortedBy(sorted, key)
    requires 0 < n <= |sorted|
    requires t in sorted && key(t) < key(sorted[n - 1])
    ensures t in sorted[..n]
  {
    var k :| 0 <= k < |sorted| && sorted[k] == t;
    assert k < n;
    assert sorted[..n][k] == t;
  }

  /** Prepending an element with a fresh key keeps the keys distinct. */
  lemma DistinctAfterPrepend<T(!new)>(y: T, s: seq<T>, key: T -> int)
    requires DistinctKeys(s, key)
    requires forall i :: 0 <= i < |s| ==> key(s[i]) != key(y)
    ensures DistinctKeys([y] + s, key)
  {
    var r := [y] + s;
    forall i, j | 0 <= i < j < |r| ensures key(r[i]) != key(r[j]) {
      assert r[j] == s[j - 1];
      if i > 0 { assert r[i] == s[i - 1]; }
    }
  }

  lemma DistinctTail<T(!new)>(s: seq<T>, key: T -> int)
    requires s != [] && DistinctKeys(s, key)
    ensures DistinctKeys(s[1..], key)
    ensures forall i :: 0 <= i < |s| - 1 ==> key(s[1..][i]) != key(s[0])
  {
    var t := s[1..];
    forall i, j | 0 <= i < j < |t| ensures key(t[i]) != key(t[j]) {
      assert t[i] == s[i + 1] && t[j] == s[j + 1];
    }
    forall i | 0 <= i < |t| ensures key(t[i]) != key(s[0]) {
      assert t[i] == s[i + 1];
    }
  }

  lemma {:induction false} InsertByKeepsDistinct<T(!new)>(x: T, s: seq<T>, key: T -> int)
    requires SortedBy(s, key) && DistinctKeys(s, key)
    requires forall i :: 0 <= i < |s| ==> key(s[i]) != key(x)
    ensures DistinctKeys(InsertBy(x, s, key), key)
  {
    if s == [] {
    } else if key(x) <= key(s[0]) {
      DistinctAfterPrepend(x, s, key);
    } else {
      DistinctTail(s, key);
      InsertByKeepsDistinct(x, s[1..], key);
      var rest := InsertBy(x, s[1..], key);
      InsertByPermutes(x, s[1..], key);
      forall i | 0 <= i < |rest| ensures key(rest[i]) != key(s[0]) {
        assert rest[i] in multiset(rest);
        if rest[i] != x {
          assert rest[i] in s[1..];
        }
      }
      DistinctAfterPrepend(s[0], rest, key);
    }
  }

  /** Sorting a sequence whose keys are pairwise distinct keeps them pairwise distinct,
      so the result is strictly increasing in the key. */
  lemma {:induction false} SortByKeepsDistinct<T(!new)>(s: seq<T>, key: T -> int)
    requires DistinctKeys(s, key)
    ensures DistinctKeys(SortBy(s, key), key)
    ensures forall i, j :: 0 <= i < j < |SortBy(s, key)| ==> key(SortBy(s, key)[i]) < key(SortBy(s, key)[j])
  {
    if s != [] {
      DistinctTail(s, key);
      SortByKeepsDistinct(s[1..], key);
      var sorted := SortBy(s[1..], key);
      SortByPermutes(s[1..], key);
      forall i | 0 <= i < |sorted| ensures key(sorted[i]) != key(s[0]) {
        assert sorted[i] in multiset(sorted);
        assert sorted[i] in s[1..];
      }
      InsertByKeepsDistinct(s[0], sorted, key);
    }
  }
}
