/**
 * Sequence arithmetic and Python-style slicing and dictionary helpers
 * shared by every module of the model.
 */
module Seqs {
  import opened Wrappers

  /** Sum of a sequence of reals, `np.sum` / `sum()`. */
  function Sum(s: seq<real>): real
    decreases |s|
  {
    if |s| == 0 then 0.0 else Sum(s[..|s| - 1]) + s[|s| - 1]
  }

  lemma {:induction false} SumAppend(a: seq<real>, b: seq<real>)
    ensures Sum(a + b) == Sum(a) + Sum(b)
    decreases |b|
  {
    if |b| == 0 {
      assert a + b == a;
    } else {
      assert (a + b)[..|a + b| - 1] == a + b[..|b| - 1];
      SumAppend(a, b[..|b| - 1]);
    }
  }

  lemma {:induction false} SumNonNegative(s: seq<real>)
    requires forall i :: 0 <= i < |s| ==> s[i] >= 0.0
    ensures Sum(s) >= 0.0
    decreases |s|
  {
    if |s| > 0 {
      SumNonNegative(s[..|s| - 1]);
    }
  }

  /** The sum of non-negative reals bounds each of them. */
  lemma {:induction false} SumBoundsElement(s: seq<real>, i: nat)
    requires forall j :: 0 <= j < |s| ==> s[j] >= 0.0
    requires i < |s|
    ensures s[i] <= Sum(s)
    decreases |s|
  {
    if i < |s| - 1 {
      SumBoundsElement(s[..|s| - 1], i);
    } else {
      SumNonNegative(s[..|s| - 1]);
    }
  }

  /** Sum of a constant sequence. */
  lemma {:induction false} SumConstant(s: seq<real>, c: real)
    requires forall i :: 0 <= i < |s| ==> s[i] == c
    ensures Sum(s) == (|s| as real) * c
    decreases |s|
  {
    if |s| > 0 {
      SumConstant(s[..|s| - 1], c);
    }
  }

  /** Scaling every element scales the sum. */
  lemma {:induction false} SumScaled(s: seq<real>, t: seq<real>, c: real)
    requires |s| == |t|
    requires forall i :: 0 <= i < |s| ==> t[i] == s[i] * c
    ensures Sum(t) == Sum(s) * c
    decreases |s|
  {
    if |s| > 0 {
      SumScaled(s[..|s| - 1], t[..|t| - 1], c);
    }
  }

  /** Pointwise order carries over to the sums. */
  lemma {:induction false} SumMonotone(s: seq<real>, t: seq<real>)
    requires |s| == |t|
    requires forall i :: 0 <= i < |s| ==> s[i] <= t[i]
    ensures Sum(s) <= Sum(t)
    decreases |s|
  {
    if |s| > 0 {
      SumMonotone(s[..|s| - 1], t[..|t| - 1]);
    }
  }

  /** `abs` on reals. */
  function Abs(x: real): (a: real)
    ensures a >= 0.0 && (a == x || a == -x)
  {
    if x < 0.0 then -x else x
  }

  /** Arithmetic mean, `np.mean`; callers guard the empty case as the source does. */
  function Mean(s: seq<real>): real
    requires |s| > 0
  {
    Sum(s) / (|s| as real)
  }

  /** Python `s[-k:]` for a count `k >= 0` (`s[-0:]` is the whole sequence). */
  function TakeLast<T>(s: seq<T>, k: nat): (r: seq<T>)
    ensures |r| == (if k == 0 || k >= |s| then |s| else k)
    ensures r == s[|s| - |r|..]
  {
    if k == 0 || k >= |s| then s else s[|s| - k..]
  }

  /** Python `s[:k]` for any integer `k`, negative ones counting from the end. */
  function PyPrefix<T>(s: seq<T>, k: int): (r: seq<T>)
    ensures |r| == (if k >= |s| then |s| else if k >= 0 then k else if |s| + k >= 0 then |s| + k else 0)
    ensures r == s[..|r|]
  {
    if k >= |s| then s else if k >= 0 then s[..k] else if |s| + k >= 0 then s[..|s| + k] else []
  }

  /** Number of elements of `s` that are `<= x`. */
  function CountAtMost(s: seq<real>, x: real): (n: nat)
    ensures n <= |s|
    decreases |s|
  {
    if |s| == 0 then 0
    else CountAtMost(s[..|s| - 1], x) + (if s[|s| - 1] <= x then 1 else 0)
  }

  /** No element occurs twice. */
  predicate Distinct<T(==)>(s: seq<T>)
  {
    forall i, j :: 0 <= i < j < |s| ==> s[i] != s[j]
  }

  lemma {:induction false} DistinctCardinality<T>(s: seq<T>)
    requires Distinct(s)
    ensures |set x | x in s| == |s|
    decreases |s|
  {
    if |s| > 0 {
      var init := s[..|s| - 1];
      DistinctCardinality(init);
      assert (set x | x in s) == (set x | x in init) + {s[|s| - 1]};
      assert s[|s| - 1] !in init;
    }
  }

  /** A duplicate-free sequence drawn from a duplicate-free `pool` that holds all of it is at most as long. */
  lemma DistinctSubsetLength<T>(s: seq<T>, pool: seq<T>)
    requires Distinct(s) && Distinct(pool)
    requires forall x :: x in s ==> x in pool
    ensures |s| <= |pool|
    ensures |s| == |pool| ==> forall x :: x in pool ==> x in s
  {
    DistinctCardinality(s);
    DistinctCardinality(pool);
    var a := set x | x in s;
    var b := set x | x in pool;
    assert a <= b;
    assert b == a + (b - a);
    assert a * (b - a) == {};
    assert |b| == |a| + |b - a|;
    if |s| == |pool| {
      assert b - a == {};
      forall x | x in pool ensures x in s {
        assert x in b;
      }
    }
  }

  lemma {:induction false} DistinctMultiplicity<T>(s: seq<T>, x: T)
    requires Distinct(s)
    ensures multiset(s)[x] <= 1
    decreases |s|
  {
    if |s| > 0 {
      var init := s[..|s| - 1];
      assert s == init + [s[|s| - 1]];
      DistinctMultiplicity(init, x);
      if x == s[|s| - 1] {
        assert x !in init;
      }
    }
  }

  lemma {:induction false} RepeatMultiplicity<T>(s: seq<T>, i: nat, j: nat)
    requires i < j < |s| && s[i] == s[j]
    ensures multiset(s)[s[i]] >= 2
  {
    var x := s[i];
    assert s == s[..i] + [x] + s[i + 1..j] + [x] + s[j + 1..];
  }

  /** Reordering keeps a sequence free of duplicates. */
  lemma PermutationDistinct<T>(a: seq<T>, b: seq<T>)
    requires multiset(a) == multiset(b) && Distinct(a)
    ensures Distinct(b)
  {
    forall i, j | 0 <= i < j < |b| ensures b[i] != b[j] {
      if b[i] == b[j] {
        RepeatMultiplicity(b, i, j);
        DistinctMultiplicity(a, b[i]);
      }
    }
  }

  /** An element of a reordering is an element of the original. */
  lemma PermutationMember<T>(a: seq<T>, b: seq<T>, i: nat)
    requires multiset(a) == multiset(b) && i < |b|
    ensures b[i] in a
  {
    assert b[i] in multiset(b);
  }

  // ---------------------------------------------------------------------------
  // Insertion-ordered dictionaries, as association lists with distinct keys.
  // ---------------------------------------------------------------------------

  function Keys<K, V>(d: seq<(K, V)>): (ks: seq<K>)
    ensures |ks| == |d|
    ensures forall i :: 0 <= i < |d| ==> ks[i] == d[i].0
  {
    if |d| == 0 then [] else Keys(d[..|d| - 1]) + [d[|d| - 1].0]
  }

  predicate DistinctKeys<K(==), V>(d: seq<(K, V)>)
  {
    forall i, j :: 0 <= i < j < |d| ==> d[i].0 != d[j].0
  }

  predicate HasKey<K(==), V>(d: seq<(K, V)>, k: K)
  {
    exists i :: 0 <= i < |d| && d[i].0 == k
  }

  /** `d.get(k)`: the value of the first entry with key `k`. */
  function Get<K(==), V>(d: seq<(K, V)>, k: K): (r: Option<V>)
    ensures r.None? <==> !HasKey(d, k)
    ensures r.Some? ==> exists i :: 0 <= i < |d| && d[i] == (k, r.value)
    decreases |d|
  {
    if |d| == 0 then None
    else if d[0].0 == k then Some(d[0].1)
    else
      var r := Get(d[1..], k);
      assert forall i :: 0 <= i < |d| - 1 ==> d[1..][i] == d[i + 1];
      assert HasKey(d, k) ==> HasKey(d[1..], k) by {
        if HasKey(d, k) {
          var i :| 0 <= i < |d| && d[i].0 == k;
          assert d[1..][i - 1].0 == k;
        }
      }
      r
  }

  lemma GetAt<K, V>(d: seq<(K, V)>, i: nat)
    requires DistinctKeys(d) && i < |d|
    ensures Get(d, d[i].0) == Some(d[i].1)
  {
    var r := Get(d, d[i].0);
    assert HasKey(d, d[i].0);
    var j :| 0 <= j < |d| && d[j] == (d[i].0, r.value);
    assert j == i;
  }

  /** Reordering keeps the keys of a dictionary distinct. */
  lemma PermutationDistinctKeys<K, V>(a: seq<(K, V)>, b: seq<(K, V)>)
    requires multiset(a) == multiset(b) && DistinctKeys(a) && Distinct(a)
    ensures DistinctKeys(b)
  {
    PermutationDistinct(a, b);
    forall i, j | 0 <= i < j < |b| ensures b[i].0 != b[j].0 {
      PermutationMember(a, b, i);
      PermutationMember(a, b, j);
      var x :| 0 <= x < |a| && a[x] == b[i];
      var y :| 0 <= y < |a| && a[y] == b[j];
    }
  }

  /** Removing keys one more at a time. */
  lemma MapMinusStep<K, V>(m: map<K, V>, d: set<K>, x: K)
    ensures (m - d) - {x} == m - (d + {x})
  {
  }

  /** The set of elements of a sequence. */
  function Elements<T(!new)>(s: seq<T>): (r: set<T>)
    ensures forall x :: x in r <==> x in s
  {
    if |s| == 0 then {} else Elements(s[..|s| - 1]) + {s[|s| - 1]}
  }

  /** The elements of a prefix one longer. */
  lemma PrefixElements<T(!new)>(s: seq<T>, j: nat)
    requires j < |s|
    ensures Elements(s[..j + 1]) == Elements(s[..j]) + {s[j]}
  {
    assert s[..j + 1][..j] == s[..j];
  }
}
