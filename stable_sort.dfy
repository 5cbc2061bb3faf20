/**
 * The stable sort that `list.sort(key=...)` performs, written as an insertion sort
 * over sequences. Ascending by a real-valued key; a descending sort with
 * `reverse=True` is the ascending sort on the negated key, which Python also keeps
 * stable (elements with equal keys stay in their original order).
 */
module StableSort {

  /** Keys never decrease from left to right. */
  ghost predicate Ascending<T>(s: seq<T>, key: T -> real)
  {
    forall i, j :: 0 <= i < j < |s| ==> key(s[i]) <= key(s[j])
  }

  /** The subsequence of `s` whose key equals `k`, in the order of `s`. */
  function WithKey<T>(s: seq<T>, key: T -> real, k: real): seq<T>
    decreases |s|
  {
    if s == [] then []
    else WithKey(s[..|s| - 1], key, k) + (if key(s[|s| - 1]) == k then [s[|s| - 1]] else [])
  }

  /** Places `x` after the last element of `s` whose key is at most `x`'s key,
      moving past larger keys from the right. */
  function Insert<T>(s: seq<T>, x: T, key: T -> real): (r: seq<T>)
    ensures |r| == |s| + 1
    ensures multiset(r) == multiset(s) + multiset{x}
    decreases |s|
  {
    if s == [] || key(s[|s| - 1]) <= key(x) then s + [x]
    else
      var n := |s| - 1;
      assert s == s[..n] + [s[n]];
      Insert(s[..n], x, key) + [s[n]]
  }

  /** Sorts `s` ascending by `key`, keeping equal keys in input order. */
  function Sort<T>(s: seq<T>, key: T -> real): (r: seq<T>)
    ensures |r| == |s|
    ensures multiset(r) == multiset(s)
    decreases |s|
  {
    if s == [] then []
    else
      var n := |s| - 1;
      assert s == s[..n] + [s[n]];
      Insert(Sort(s[..n], key), s[n], key)
  }

  lemma {:induction false} InsertAscending<T>(s: seq<T>, x: T, key: T -> real)
    requires Ascending(s, key)
    ensures Ascending(Insert(s, x, key), key)
  {
    if s == [] || key(s[|s| - 1]) <= key(x) {
    } else {
      var n := |s| - 1;
      var last := s[n];
      var front := Insert(s[..n], x, key);
      InsertAscending(s[..n], x, key);
      assert Insert(s, x, key) == front + [last];
      forall i | 0 <= i < |front|
        ensures key(front[i]) <= key(last)
      {
        assert front[i] in multiset(front);
        assert front[i] in multiset(s[..n]) || front[i] == x;
        if front[i] != x {
          var j :| 0 <= j < n && s[..n][j] == front[i];
        }
      }
    }
  }

  /** The result of `Sort` is in ascending key order. */
  lemma {:induction false} SortAscending<T>(s: seq<T>, key: T -> real)
    ensures Ascending(Sort(s, key), key)
  {
    if s != [] {
      var n := |s| - 1;
      SortAscending(s[..n], key);
      InsertAscending(Sort(s[..n], key), s[n], key);
    }
  }

  lemma {:induction false} InsertWithKey<T>(s: seq<T>, x: T, key: T -> real, k: real)
    ensures WithKey(Insert(s, x, key), key, k)
         == WithKey(s, key, k) + (if key(x) == k then [x] else [])
  {
    if s == [] || key(s[|s| - 1]) <= key(x) {
      assert (s + [x])[..|s|] == s;
    } else {
      var n := |s| - 1;
      var front := Insert(s[..n], x, key);
      InsertWithKey(s[..n], x, key, k);
      assert (front + [s[n]])[..|front|] == front;
    }
  }

  /** Stability: for every key value, the elements carrying it appear in the
      result in exactly the order they had in the input. */
  lemma {:induction false} SortStable<T>(s: seq<T>, key: T -> real, k: real)
    ensures WithKey(Sort(s, key), key, k) == WithKey(s, key, k)
  {
    if s != [] {
      var n := |s| - 1;
      SortStable(s[..n], key, k);
      InsertWithKey(Sort(s[..n], key), s[n], key, k);
    }
  }
}
