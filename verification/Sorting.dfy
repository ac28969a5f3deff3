/**
 * Python's `sorted(xs, key=..., reverse=True)`: a stable sort into
 * descending key order, where elements with equal keys keep their original
 * relative order.  Keys are pairs of reals compared lexicographically, which
 * covers both a single score `(score, 0.0)` and the tuple `(score, strength)`.
 */
module Sorting {
  type Key = (real, real)

  /** Lexicographic `a >= b` on key pairs, as Python compares tuples. */
  predicate KeyGe(a: Key, b: Key)
  {
    a.0 > b.0 || (a.0 == b.0 && a.1 >= b.1)
  }

  predicate SortedDesc<T>(s: seq<T>, key: T -> Key)
  {
    forall i, j :: 0 <= i < j < |s| ==> KeyGe(key(s[i]), key(s[j]))
  }

  /** Places `x` after every element of `t` whose key is at least `x`'s. */
  function Insert<T>(t: seq<T>, x: T, key: T -> Key): (r: seq<T>)
    ensures |r| == |t| + 1
    ensures multiset(r) == multiset(t) + multiset{x}
    decreases |t|
  {
    if |t| == 0 then [x]
    else if KeyGe(key(t[|t| - 1]), key(x)) then t + [x]
    else
      var init := t[..|t| - 1];
      assert t == init + [t[|t| - 1]];
      Insert(init, x, key) + [t[|t| - 1]]
  }

  /** Insertion sort: each element goes after everything before it that ranks at least as high. */
  function SortDesc<T>(s: seq<T>, key: T -> Key): (r: seq<T>)
    ensures |r| == |s|
    ensures multiset(r) == multiset(s)
    decreases |s|
  {
    if |s| == 0 then []
    else
      var init := s[..|s| - 1];
      assert s == init + [s[|s| - 1]];
      Insert(SortDesc(init, key), s[|s| - 1], key)
  }

  lemma {:induction false} InsertSorted<T>(t: seq<T>, x: T, key: T -> Key)
    requires SortedDesc(t, key)
    ensures SortedDesc(Insert(t, x, key), key)
    decreases |t|
  {
    if |t| > 0 && !KeyGe(key(t[|t| - 1]), key(x)) {
      var init := t[..|t| - 1];
      var last := t[|t| - 1];
      InsertSorted(init, x, key);
      var ins := Insert(init, x, key);
      forall i | 0 <= i < |ins| ensures KeyGe(key(ins[i]), key(last)) {
        assert ins[i] in multiset(ins);
        if ins[i] != x {
          assert ins[i] in multiset(init);
          var k :| 0 <= k < |init| && init[k] == ins[i];
          assert t[k] == ins[i];
        }
      }
    }
  }

  /** The result of the sort is in descending key order. */
  lemma {:induction false} SortDescSorted<T>(s: seq<T>, key: T -> Key)
    ensures SortedDesc(SortDesc(s, key), key)
    decreases |s|
  {
    if |s| > 0 {
      SortDescSorted(s[..|s| - 1], key);
      InsertSorted(SortDesc(s[..|s| - 1], key), s[|s| - 1], key);
    }
  }

  /** The elements of `s` whose key equals `k`, in order. */
  function WithKey<T>(s: seq<T>, key: T -> Key, k: Key): (r: seq<T>)
    decreases |s|
  {
    if |s| == 0 then []
    else WithKey(s[..|s| - 1], key, k) + (if key(s[|s| - 1]) == k then [s[|s| - 1]] else [])
  }

  lemma {:induction false} WithKeyAppend<T>(a: seq<T>, b: seq<T>, key: T -> Key, k: Key)
    ensures WithKey(a + b, key, k) == WithKey(a, key, k) + WithKey(b, key, k)
    decreases |b|
  {
    if |b| > 0 {
      assert (a + b)[..|a + b| - 1] == a + b[..|b| - 1];
      WithKeyAppend(a, b[..|b| - 1], key, k);
    } else {
      assert a + b == a;
    }
  }

  lemma {:induction false} InsertStable<T>(t: seq<T>, x: T, key: T -> Key, k: Key)
    ensures WithKey(Insert(t, x, key), key, k)
         == WithKey(t, key, k) + (if key(x) == k then [x] else [])
    decreases |t|
  {
    if |t| == 0 {
    } else if KeyGe(key(t[|t| - 1]), key(x)) {
      WithKeyAppend(t, [x], key, k);
    } else {
      var init := t[..|t| - 1];
      var last := t[|t| - 1];
      InsertStable(init, x, key, k);
      WithKeyAppend(Insert(init, x, key), [last], key, k);
      assert key(x) == k ==> key(last) != k;
    }
  }

  /**
   * Stability: for every key, the elements carrying it appear in the sorted
   * result in exactly the order they had in the input.
   */
  lemma {:induction false} SortDescStable<T>(s: seq<T>, key: T -> Key, k: Key)
    ensures WithKey(SortDesc(s, key), key, k) == WithKey(s, key, k)
    decreases |s|
  {
    if |s| > 0 {
      SortDescStable(s[..|s| - 1], key, k);
      InsertStable(SortDesc(s[..|s| - 1], key), s[|s| - 1], key, k);
    }
  }
}
