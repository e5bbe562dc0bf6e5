/**
 * The descending sort that every ranking in the application performs:
 * `[...xs].sort((a, b) => key(b) - key(a))`. JavaScript's `Array.prototype.sort`
 * is stable, so entries with equal keys keep their original order.
 *
 * `SortDesc` computes it (an insertion sort that puts each entry in front of
 * the later entries with an equal key); `SortDescIsStableSort` proves that it
 * is sorted, a permutation, and keeps the order of equal keys, and `SortHead`
 * that its first entry is the earliest entry with the greatest key.
 */
module Ranking {

  function Insert<T>(x: T, t: seq<T>, key: T -> int): (r: seq<T>)
    ensures |r| == |t| + 1
    ensures multiset(r) == multiset(t) + multiset{x}
  {
    if t == [] || key(x) >= key(t[0]) then [x] + t
    else
      assert t == [t[0]] + t[1..];
      [t[0]] + Insert(x, t[1..], key)
  }

  function SortDesc<T>(s: seq<T>, key: T -> int): (r: seq<T>)
    ensures |r| == |s|
    ensures multiset(r) == multiset(s)
  {
    if s == [] then []
    else
      assert s == [s[0]] + s[1..];
      Insert(s[0], SortDesc(s[1..], key), key)
  }

  ghost predicate SortedDesc<T>(s: seq<T>, key: T -> int)
  {
    forall i, j :: 0 <= i < j < |s| ==> key(s[i]) >= key(s[j])
  }

  /** The entries of `s` whose key is `k`, in their order in `s`. */
  function WithKey<T>(s: seq<T>, key: T -> int, k: int): seq<T>
  {
    if s == [] then [] else (if key(s[0]) == k then [s[0]] else []) + WithKey(s[1..], key, k)
  }

  /** The index of the earliest entry holding the greatest key. */
  function FirstMaxIndex<T>(s: seq<T>, key: T -> int): (i: nat)
    requires |s| > 0
    ensures i < |s|
    ensures forall j :: 0 <= j < |s| ==> key(s[j]) <= key(s[i])
    ensures forall j :: 0 <= j < i ==> key(s[j]) < key(s[i])
  {
    if |s| == 1 then 0
    else
      var k := FirstMaxIndex(s[1..], key);
      if key(s[0]) >= key(s[1..][k]) then 0 else k + 1
  }

  lemma {:induction false} InsertIsStable<T>(x: T, t: seq<T>, key: T -> int)
    requires SortedDesc(t, key)
    ensures SortedDesc(Insert(x, t, key), key)
    ensures forall k :: WithKey(Insert(x, t, key), key, k)
                        == (if key(x) == k then [x] else []) + WithKey(t, key, k)
  {
    var r := Insert(x, t, key);
    if t == [] || key(x) >= key(t[0]) {
      assert r == [x] + t;
      assert r[1..] == t;
      forall i, j | 0 <= i < j < |r| ensures key(r[i]) >= key(r[j]) {
        if i > 0 {
          assert r[i] == t[i - 1] && r[j] == t[j - 1];
        } else {
          assert r[j] == t[j - 1];
        }
      }
    } else {
      var rest := Insert(x, t[1..], key);
      assert r == [t[0]] + rest;
      assert r[1..] == rest;
      InsertIsStable(x, t[1..], key);
      forall i, j | 0 <= i < j < |r| ensures key(r[i]) >= key(r[j]) {
        if i > 0 {
          assert r[i] == rest[i - 1] && r[j] == rest[j - 1];
        } else {
          assert r[j] in multiset(rest);
          assert r[j] in multiset(t[1..]) || r[j] == x;
          if r[j] != x {
            var m :| 0 <= m < |t[1..]| && t[1..][m] == r[j];
            assert t[m + 1] == r[j];
          }
        }
      }
    }
  }

  /** SortDesc is a stable descending sort: it is sorted, a permutation of
   *  its input, and for every key the entries holding it appear in the
   *  same order as in the input (ties keep their original order). */
  lemma {:induction false} SortDescIsStableSort<T>(s: seq<T>, key: T -> int)
    ensures SortedDesc(SortDesc(s, key), key)
    ensures multiset(SortDesc(s, key)) == multiset(s)
    ensures forall k :: WithKey(SortDesc(s, key), key, k) == WithKey(s, key, k)
  {
    if s != [] {
      SortDescIsStableSort(s[1..], key);
      InsertIsStable(s[0], SortDesc(s[1..], key), key);
    }
  }

  /** The ordering half of `SortDescIsStableSort`, for callers that need
   *  only that. */
  lemma SortDescIsSorted<T>(s: seq<T>, key: T -> int)
    ensures SortedDesc(SortDesc(s, key), key)
  {
    SortDescIsStableSort(s, key);
  }

  lemma {:induction false} SortHeadKey<T>(s: seq<T>, key: T -> int)
    requires |s| > 0
    ensures key(SortDesc(s, key)[0]) == key(s[FirstMaxIndex(s, key)])
  {
    var r := SortDesc(s, key);
    SortDescIsStableSort(s, key);
    var i := FirstMaxIndex(s, key);
    assert s[i] in multiset(r);
    var m :| 0 <= m < |r| && r[m] == s[i];
    assert r[0] in multiset(s);
    var n :| 0 <= n < |s| && s[n] == r[0];
  }

  /** The first entry of the sorted sequence is the earliest entry of the
   *  input holding the greatest key. */
  lemma {:induction false} SortHead<T>(s: seq<T>, key: T -> int)
    requires |s| > 0
    ensures SortDesc(s, key)[0] == s[FirstMaxIndex(s, key)]
  {
    if |s| > 1 {
      var t := SortDesc(s[1..], key);
      SortHead(s[1..], key);
      SortHeadKey(s[1..], key);
    }
  }
}
