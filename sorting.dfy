/**
 * `Array.prototype.sort` with a numeric comparator `(a, b) => key(a) - key(b)`.
 * ECMAScript requires the sort to be stable, so its result is the unique
 * sequence that is ordered by `key`, is a permutation of the input, and keeps
 * the input order among elements with equal keys. Insertion sort computes it.
 */
module Sorting {

  ghost predicate SortedByKey<T>(s: seq<T>, key: T -> int) {
    forall i, j :: 0 <= i < j < |s| ==> key(s[i]) <= key(s[j])
  }

  /** The elements of `s` whose key is `k`, in their order in `s`. */
  function WithKey<T>(s: seq<T>, key: T -> int, k: int): seq<T> {
    if s == [] then [] else (if key(s[0]) == k then [s[0]] else []) + WithKey(s[1..], key, k)
  }

  /** Inserts `x` before the first element whose key is not smaller. */
  function Insert<T>(x: T, s: seq<T>, key: T -> int): (r: seq<T>)
    ensures |r| == |s| + 1
    ensures multiset(r) == multiset(s) + multiset{x}
    ensures r[0] == x || (s != [] && r[0] == s[0])
  {
    if s == [] || key(x) <= key(s[0]) then [x] + s
    else
      assert s == [s[0]] + s[1..];
      [s[0]] + Insert(x, s[1..], key)
  }

  /** Putting an element no larger than the head in front keeps a sequence ordered. */
  lemma ConsSorted<T>(a: T, t: seq<T>, key: T -> int)
    requires SortedByKey(t, key) && (t != [] ==> key(a) <= key(t[0]))
    ensures SortedByKey([a] + t, key)
  {
    forall i, j | 0 <= i < j < |[a] + t| ensures key(([a] + t)[i]) <= key(([a] + t)[j]) {
      if i > 0 {
        assert ([a] + t)[i] == t[i - 1];
      }
      assert ([a] + t)[j] == t[j - 1];
    }
  }

  /** Inserting into an ordered sequence keeps it ordered. */
  lemma {:induction false} InsertKeepsSorted<T>(x: T, s: seq<T>, key: T -> int)
    requires SortedByKey(s, key)
    ensures SortedByKey(Insert(x, s, key), key)
  {
    if s == [] || key(x) <= key(s[0]) {
      ConsSorted(x, s, key);
    } else {
      var t := Insert(x, s[1..], key);
      assert SortedByKey(s[1..], key);
      InsertKeepsSorted(x, s[1..], key);
      assert key(s[0]) <= key(t[0]) by {
        if t[0] != x {
          assert t[0] == s[1..][0] == s[1];
        }
      }
      ConsSorted(s[0], t, key);
    }
  }

  /** `[...s].sort((a, b) => key(a) - key(b))`. */
  function SortByKey<T>(s: seq<T>, key: T -> int): (r: seq<T>)
    ensures |r| == |s|
    ensures multiset(r) == multiset(s)
    ensures SortedByKey(r, key)
  {
    if s == [] then []
    else
      assert s == [s[0]] + s[1..];
      var rest := SortByKey(s[1..], key);
      InsertKeepsSorted(s[0], rest, key);
      Insert(s[0], rest, key)
  }

  lemma WithKeyCons<T>(a: T, t: seq<T>, key: T -> int, k: int)
    ensures WithKey([a] + t, key, k) == (if key(a) == k then [a] else []) + WithKey(t, key, k)
  {
    assert ([a] + t)[1..] == t;
  }

  /** Inserting `x` puts it first among the elements with its key. */
  lemma {:induction false} InsertWithKey<T>(x: T, s: seq<T>, key: T -> int, k: int)
    ensures WithKey(Insert(x, s, key), key, k) == (if key(x) == k then [x] else []) + WithKey(s, key, k)
  {
    if s == [] || key(x) <= key(s[0]) {
      WithKeyCons(x, s, key, k);
    } else {
      var t := Insert(x, s[1..], key);
      assert Insert(x, s, key) == [s[0]] + t;
      InsertWithKey(x, s[1..], key, k);
      PassSmaller(x, s[0], s[1..], t, key, k);
      assert [s[0]] + s[1..] == s;
    }
  }

  /** An element with a smaller key than `x` can move in front of it
      without changing the elements with any one key. */
  lemma PassSmaller<T>(x: T, a: T, rest: seq<T>, t: seq<T>, key: T -> int, k: int)
    requires key(a) < key(x)
    requires WithKey(t, key, k) == (if key(x) == k then [x] else []) + WithKey(rest, key, k)
    ensures WithKey([a] + t, key, k) == (if key(x) == k then [x] else []) + WithKey([a] + rest, key, k)
  {
    WithKeyCons(a, t, key, k);
    WithKeyCons(a, rest, key, k);
    var head := if key(a) == k then [a] else [];
    var mine := if key(x) == k then [x] else [];
    assert head == [] || mine == [];
    assert head + mine == mine + head;
  }

  /** Stability: for every key, the elements with that key come out in the
      order they went in. */
  lemma {:induction false} SortIsStable<T>(s: seq<T>, key: T -> int, k: int)
    ensures WithKey(SortByKey(s, key), key, k) == WithKey(s, key, k)
  {
    if s != [] {
      SortIsStable(s[1..], key, k);
      InsertWithKey(s[0], SortByKey(s[1..], key), key, k);
    }
  }

  /** Sorting an already ordered sequence leaves it as it is. */
  lemma {:induction false} SortKeepsSorted<T>(s: seq<T>, key: T -> int)
    requires SortedByKey(s, key)
    ensures SortByKey(s, key) == s
  {
    if s != [] {
      SortKeepsSorted(s[1..], key);
      assert SortByKey(s[1..], key) == s[1..];
      assert s[1..] == [] || key(s[0]) <= key(s[1..][0]);
      assert s == [s[0]] + s[1..];
    }
  }
}
