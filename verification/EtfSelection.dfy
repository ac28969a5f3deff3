/**
 * `_get_target_positions`, shared verbatim by the two backtrader copies of
 * the ETF rotation strategy: the defensive fallback, the candidate filter,
 * the stable ranking by composite score, the two-pass style-diversified
 * selection and the exposure-scaled score weighting.
 */
module EtfSelection {
  import opened Wrappers
  import opened Seqs
  import opened Sorting
  import opened Utils

  /** Factor scores keyed by symbol in insertion order; only the composite is read. */
  type Scores = seq<(string, real)>

  /** Ranking key: the composite score. */
  function CompositeKey(e: (string, real)): Key
  {
    (e.1, 0.0)
  }

  /** The scores whose composite strictly exceeds the threshold, in dictionary order. */
  function Candidates(scores: Scores, threshold: real): (c: Scores)
    ensures forall i :: 0 <= i < |c| ==> c[i].1 > threshold && c[i] in scores
    ensures forall i :: 0 <= i < |scores| && scores[i].1 > threshold ==> scores[i] in c
    ensures |c| <= |scores|
  {
    if |scores| == 0 then []
    else
      var c := Candidates(scores[..|scores| - 1], threshold);
      var e := scores[|scores| - 1];
      assert forall x :: x in scores[..|scores| - 1] ==> x in scores;
      c + (if e.1 > threshold then [e] else [])
  }

  lemma {:induction false} CandidatesDistinctKeys(scores: Scores, threshold: real)
    requires DistinctKeys(scores)
    ensures DistinctKeys(Candidates(scores, threshold))
    ensures Distinct(Candidates(scores, threshold))
  {
    if |scores| > 0 {
      var init := scores[..|scores| - 1];
      CandidatesDistinctKeys(init, threshold);
      var e := scores[|scores| - 1];
      forall x | x in Candidates(init, threshold) ensures x.0 != e.0 {
        var k :| 0 <= k < |init| && init[k] == x;
        assert scores[k] == x;
      }
    }
  }

  /** `sorted(qualified, key=composite, reverse=True)`. */
  function Ranked(scores: Scores, threshold: real): Scores
  {
    SortDesc(Candidates(scores, threshold), CompositeKey)
  }

  /** The ranking reorders the candidates by descending composite. */
  lemma RankedSorted(scores: Scores, threshold: real)
    ensures var r := Ranked(scores, threshold);
      && multiset(r) == multiset(Candidates(scores, threshold))
      && (forall i, j :: 0 <= i < j < |r| ==> r[i].1 >= r[j].1)
  {
    SortDescSorted(Candidates(scores, threshold), CompositeKey);
  }

  /** Equal composites keep their dictionary order (Python's sort is stable). */
  lemma RankedStable(scores: Scores, threshold: real, k: Key)
    ensures WithKey(Ranked(scores, threshold), CompositeKey, k)
         == WithKey(Candidates(scores, threshold), CompositeKey, k)
  {
    SortDescStable(Candidates(scores, threshold), CompositeKey, k);
  }

  /** Every ranked entry is a dictionary entry above the threshold, and each symbol appears once. */
  lemma RankedEntries(scores: Scores, threshold: real)
    requires DistinctKeys(scores)
    ensures DistinctKeys(Ranked(scores, threshold))
    ensures forall i :: 0 <= i < |Ranked(scores, threshold)| ==>
      Ranked(scores, threshold)[i].1 > threshold && Ranked(scores, threshold)[i] in scores
  {
    var c := Candidates(scores, threshold);
    var r := Ranked(scores, threshold);
    CandidatesDistinctKeys(scores, threshold);
    PermutationDistinctKeys(c, r);
    forall i | 0 <= i < |r| ensures r[i].1 > threshold && r[i] in scores {
      PermutationMember(c, r, i);
    }
  }

  /** `etf_styles.get(symbol, 'unknown')`. */
  function StyleOf(styles: map<string, string>, symbol: string): string
  {
    if symbol in styles then styles[symbol] else "unknown"
  }

  /**
   * The number of symbols at which the first pass stops: `maxHoldings`,
   * except that the test runs after each symbol, so the top one is taken
   * even when `maxHoldings < 1`.
   */
  function Cap(maxHoldings: int): (c: nat)
    ensures c >= 1 && c >= maxHoldings
  {
    if maxHoldings < 1 then 1 else maxHoldings
  }

  /** `style_included` once `taken` are taken: the style of each of them. */
  function StyleSet(styles: map<string, string>, taken: seq<string>): set<string>
    decreases |taken|
  {
    if |taken| == 0 then {}
    else StyleSet(styles, taken[..|taken| - 1]) + {StyleOf(styles, taken[|taken| - 1])}
  }

  lemma {:induction false} StyleSetHas(styles: map<string, string>, taken: seq<string>, j: nat)
    requires j < |taken|
    ensures StyleOf(styles, taken[j]) in StyleSet(styles, taken)
    decreases |taken|
  {
    if j < |taken| - 1 {
      var init := taken[..|taken| - 1];
      assert init[j] == taken[j];
      StyleSetHas(styles, init, j);
    }
  }

  /**
   * The first selection pass over a ranking, as a specification: symbol by
   * symbol, until `Cap(maxHoldings)` are taken, a symbol is taken when its
   * style is not yet among the taken ones or fewer than two are taken.
   */
  function FirstPass(ranked: seq<string>, styles: map<string, string>, maxHoldings: int): seq<string>
    decreases |ranked|
  {
    if |ranked| == 0 then []
    else
      var taken := FirstPass(ranked[..|ranked| - 1], styles, maxHoldings);
      var x := ranked[|ranked| - 1];
      if |taken| >= Cap(maxHoldings) then taken
      else if StyleOf(styles, x) !in StyleSet(styles, taken) || |taken| < 2 then taken + [x]
      else taken
  }

  /** The ranked symbols not in `first`, in rank order. */
  function Untaken(ranked: seq<string>, first: seq<string>): (r: seq<string>)
    ensures forall x :: x in r <==> x in ranked && x !in first
    ensures |r| <= |ranked|
    decreases |ranked|
  {
    if |ranked| == 0 then []
    else
      var init := ranked[..|ranked| - 1];
      var x := ranked[|ranked| - 1];
      assert ranked == init + [x];
      Untaken(init, first) + (if x in first then [] else [x])
  }

  /**
   * `target_list` after both passes: the first pass, then, while fewer than
   * `maxHoldings` are taken, the untaken ranked symbols in rank order.
   */
  function Selection(ranked: seq<string>, styles: map<string, string>, maxHoldings: int): seq<string>
  {
    var first := FirstPass(ranked, styles, maxHoldings);
    if |first| < maxHoldings then first + PyPrefix(Untaken(ranked, first), maxHoldings - |first|) else first
  }

  /** The first pass takes ranked symbols only, each once, at most `Cap(maxHoldings)` of them, and always the top two it can. */
  lemma {:induction false} FirstPassFacts(ranked: seq<string>, styles: map<string, string>, maxHoldings: int)
    requires Distinct(ranked)
    ensures var t := FirstPass(ranked, styles, maxHoldings);
      && Distinct(t) && (forall x :: x in t ==> x in ranked)
      && |t| <= Cap(maxHoldings) && |t| <= |ranked|
      && (|ranked| >= 1 ==> |t| >= 1)
      && (|ranked| >= 2 && Cap(maxHoldings) >= 2 ==> |t| >= 2)
      && (forall k :: 0 <= k < |t| && k < 2 ==> t[k] == ranked[k])
    decreases |ranked|
  {
    if |ranked| > 0 {
      var init := ranked[..|ranked| - 1];
      assert Distinct(init);
      FirstPassFacts(init, styles, maxHoldings);
      assert forall x :: x in init ==> x in ranked;
      assert ranked[|ranked| - 1] !in init;
    }
  }

  /** The pass over a prefix of the ranking is a prefix of the whole pass. */
  lemma {:induction false} FirstPassPrefix(ranked: seq<string>, styles: map<string, string>, maxHoldings: int, j: nat)
    requires j <= |ranked|
    ensures FirstPass(ranked[..j], styles, maxHoldings) <= FirstPass(ranked, styles, maxHoldings)
    decreases |ranked|
  {
    if j == |ranked| {
      assert ranked[..j] == ranked;
    } else {
      var init := ranked[..|ranked| - 1];
      assert init[..j] == ranked[..j];
      FirstPassPrefix(init, styles, maxHoldings, j);
    }
  }

  /** What the whole pass takes beyond its result on a prefix comes from the rest of the ranking. */
  lemma {:induction false} FirstPassTail(ranked: seq<string>, styles: map<string, string>, maxHoldings: int, j: nat)
    requires j <= |ranked|
    ensures |FirstPass(ranked[..j], styles, maxHoldings)| <= |FirstPass(ranked, styles, maxHoldings)|
    ensures forall k :: |FirstPass(ranked[..j], styles, maxHoldings)| <= k < |FirstPass(ranked, styles, maxHoldings)| ==>
      FirstPass(ranked, styles, maxHoldings)[k] in ranked[j..]
    decreases |ranked|
  {
    FirstPassPrefix(ranked, styles, maxHoldings, j);
    if j == |ranked| {
      assert ranked[..j] == ranked;
    } else {
      var init := ranked[..|ranked| - 1];
      var last := ranked[|ranked| - 1];
      assert init[..j] == ranked[..j];
      FirstPassTail(init, styles, maxHoldings, j);
      var a := FirstPass(init, styles, maxHoldings);
      var w := FirstPass(ranked, styles, maxHoldings);
      assert ranked[j..] == init[j..] + [last];
      assert forall k :: 0 <= k < |a| ==> w[k] == a[k];
      assert |w| == |a| || (|w| == |a| + 1 && w[|a|] == last);
    }
  }

  /** Once `Cap(maxHoldings)` symbols are taken, the rest of the ranking changes nothing. */
  lemma {:induction false} FirstPassSaturated(ranked: seq<string>, styles: map<string, string>, maxHoldings: int, j: nat)
    requires j <= |ranked| && |FirstPass(ranked[..j], styles, maxHoldings)| >= Cap(maxHoldings)
    ensures FirstPass(ranked, styles, maxHoldings) == FirstPass(ranked[..j], styles, maxHoldings)
    decreases |ranked|
  {
    if j == |ranked| {
      assert ranked[..j] == ranked;
    } else {
      var init := ranked[..|ranked| - 1];
      assert init[..j] == ranked[..j];
      FirstPassSaturated(init, styles, maxHoldings, j);
    }
  }

  /**
   * The style rule, both ways: the `i`-th ranked symbol is taken by the
   * first pass exactly when the pass has not stopped before it and its style
   * is new or fewer than two symbols are taken.
   */
  lemma StyleRule(ranked: seq<string>, styles: map<string, string>, maxHoldings: int, i: nat)
    requires Distinct(ranked) && i < |ranked|
    ensures var before := FirstPass(ranked[..i], styles, maxHoldings);
      ranked[i] in FirstPass(ranked, styles, maxHoldings) <==>
        |before| < Cap(maxHoldings) && (StyleOf(styles, ranked[i]) !in StyleSet(styles, before) || |before| < 2)
  {
    var before := FirstPass(ranked[..i], styles, maxHoldings);
    var after := FirstPass(ranked[..i + 1], styles, maxHoldings);
    var whole := FirstPass(ranked, styles, maxHoldings);
    assert ranked[..i + 1][..i] == ranked[..i];
    assert ranked[..i + 1][i] == ranked[i];
    FirstPassPrefix(ranked, styles, maxHoldings, i + 1);
    assert Distinct(ranked[..i]);
    FirstPassFacts(ranked[..i], styles, maxHoldings);
    var taken := |before| < Cap(maxHoldings) && (StyleOf(styles, ranked[i]) !in StyleSet(styles, before) || |before| < 2);
    if taken {
      assert after == before + [ranked[i]];
      assert whole[|before|] == ranked[i];
    } else {
      assert after == before;
      FirstPassTail(ranked, styles, maxHoldings, i + 1);
      assert ranked[i] !in before;
      forall k | 0 <= k < |whole| ensures whole[k] != ranked[i] {
        if k < |after| {
          assert whole[k] == before[k];
        } else {
          assert whole[k] in ranked[i + 1..];
        }
      }
    }
  }

  /** Past the first two, every symbol of `t` has a style that no earlier symbol has. */
  predicate StylesNewAfterTwo(styles: map<string, string>, t: seq<string>)
  {
    forall j, k :: 0 <= j < k < |t| && k >= 2 ==> StyleOf(styles, t[j]) != StyleOf(styles, t[k])
  }

  /** Past the first two picks, every symbol of the first pass brings a style no earlier pick has. */
  lemma {:induction false} FirstPassDiversifies(ranked: seq<string>, styles: map<string, string>, maxHoldings: int)
    ensures StylesNewAfterTwo(styles, FirstPass(ranked, styles, maxHoldings))
    decreases |ranked|
  {
    if |ranked| > 0 {
      var init := ranked[..|ranked| - 1];
      var x := ranked[|ranked| - 1];
      FirstPassDiversifies(init, styles, maxHoldings);
      var taken := FirstPass(init, styles, maxHoldings);
      var t := FirstPass(ranked, styles, maxHoldings);
      if |taken| < Cap(maxHoldings) && (StyleOf(styles, x) !in StyleSet(styles, taken) || |taken| < 2) {
        assert t == taken + [x];
        forall j, k | 0 <= j < k < |t| && k >= 2 ensures StyleOf(styles, t[j]) != StyleOf(styles, t[k]) {
          assert t[j] == taken[j];
          if k == |taken| {
            StyleSetHas(styles, taken, j);
          } else {
            assert t[k] == taken[k];
          }
        }
      } else {
        assert t == taken;
      }
    }
  }

  lemma {:induction false} UntakenDistinct(ranked: seq<string>, first: seq<string>)
    requires Distinct(ranked)
    ensures Distinct(Untaken(ranked, first))
    decreases |ranked|
  {
    if |ranked| > 0 {
      var init := ranked[..|ranked| - 1];
      assert Distinct(init);
      UntakenDistinct(init, first);
      assert ranked[|ranked| - 1] !in init;
    }
  }

  /** The untaken symbols of a prefix of the ranking lead the untaken symbols of the whole. */
  lemma {:induction false} UntakenPrefix(ranked: seq<string>, first: seq<string>, j: nat)
    requires j <= |ranked|
    ensures Untaken(ranked[..j], first) <= Untaken(ranked, first)
    decreases |ranked|
  {
    if j == |ranked| {
      assert ranked[..j] == ranked;
    } else {
      var init := ranked[..|ranked| - 1];
      assert init[..j] == ranked[..j];
      UntakenPrefix(init, first, j);
    }
  }

  /** Each element of a duplicate-free sequence occurs neither before nor after its own position. */
  lemma DistinctAt<T>(s: seq<T>, j: nat)
    requires Distinct(s) && j < |s|
    ensures s[j] !in s[..j] && s[j] !in s[j + 1..]
  {
  }

  /** Joining two duplicate-free sequences with no common element gives a duplicate-free one. */
  lemma DistinctJoin<T>(a: seq<T>, b: seq<T>)
    requires Distinct(a) && Distinct(b)
    requires forall x :: x in b ==> x !in a
    ensures Distinct(a + b)
  {
    var c := a + b;
    forall i, j | 0 <= i < j < |c| ensures c[i] != c[j] {
      if j < |a| {
        assert c[i] == a[i] && c[j] == a[j];
      } else if i < |a| {
        assert c[j] == b[j - |a|] && c[i] == a[i];
        assert c[j] in b && c[i] in a;
      } else {
        assert c[i] == b[i - |a|] && c[j] == b[j - |a|];
      }
    }
  }

  /** One more ranked symbol: it joins the untaken ones unless it is in `first`. */
  lemma UntakenStep(ranked: seq<string>, first: seq<string>, j: nat)
    requires j < |ranked|
    ensures Untaken(ranked[..j + 1], first) == Untaken(ranked[..j], first) + (if ranked[j] in first then [] else [ranked[j]])
  {
    assert ranked[..j + 1][..j] == ranked[..j];
  }

  /** A duplicate-free `first` drawn from the ranking leaves exactly the other `|ranked| - |first|` symbols. */
  lemma UntakenLength(ranked: seq<string>, first: seq<string>)
    requires Distinct(ranked) && Distinct(first)
    requires forall x :: x in first ==> x in ranked
    ensures |Untaken(ranked, first)| == |ranked| - |first|
  {
    var u := Untaken(ranked, first);
    UntakenDistinct(ranked, first);
    DistinctJoin(first, u);
    var c := first + u;
    assert forall x :: x in c <==> x in ranked;
    DistinctSubsetLength(c, ranked);
    DistinctSubsetLength(ranked, c);
  }

  /**
   * The selection is made of ranked symbols, each once; it holds
   * `Cap(maxHoldings)` of them, or all when there are fewer; and it starts
   * with the top symbol, and the second one whenever two may be held.
   */
  lemma SelectionFacts(ranked: seq<string>, styles: map<string, string>, maxHoldings: int)
    requires Distinct(ranked)
    ensures var t := Selection(ranked, styles, maxHoldings);
      && Distinct(t) && (forall x :: x in t ==> x in ranked)
      && |t| == (if |ranked| < Cap(maxHoldings) then |ranked| else Cap(maxHoldings))
      && (|ranked| > 0 ==> t[0] == ranked[0])
      && (|ranked| > 1 && maxHoldings >= 2 ==> t[1] == ranked[1])
  {
    var first := FirstPass(ranked, styles, maxHoldings);
    FirstPassFacts(ranked, styles, maxHoldings);
    if |first| < maxHoldings {
      var u := Untaken(ranked, first);
      UntakenDistinct(ranked, first);
      UntakenLength(ranked, first);
      var rest := PyPrefix(u, maxHoldings - |first|);
      assert rest == u[..|rest|];
      assert Distinct(rest);
      assert forall x :: x in rest ==> x in u;
      DistinctJoin(first, rest);
      assert Cap(maxHoldings) == maxHoldings;
      assert |first + rest| == if |ranked| < maxHoldings then |ranked| else maxHoldings;
      assert Selection(ranked, styles, maxHoldings) == first + rest;
    } else {
      assert Selection(ranked, styles, maxHoldings) == first;
    }
  }

  /** With three holdings, A, B and C of one style and D of another, C is passed over for D. */
  lemma SelectionSkipsRepeatedStyle()
    ensures Selection(["A", "B", "C", "D"], map["A" := "x", "B" := "x", "C" := "x", "D" := "y"], 3) == ["A", "B", "D"]
  {
    var ranked := ["A", "B", "C", "D"];
    var styles := map["A" := "x", "B" := "x", "C" := "x", "D" := "y"];
    assert ranked[..0] == [] && ranked[..1] == ["A"] && ranked[..2] == ["A", "B"] && ranked[..3] == ["A", "B", "C"];
    assert FirstPass(["A"], styles, 3) == ["A"];
    assert FirstPass(["A", "B"], styles, 3) == ["A", "B"];
    assert StyleSet(styles, ["A", "B"]) == {"x"};
    assert FirstPass(["A", "B", "C"], styles, 3) == ["A", "B"];
    assert FirstPass(ranked, styles, 3) == ["A", "B", "D"];
  }

  /**
   * The two selection passes over the ranked symbols: the first pass, then,
   * while fewer than `maxHoldings` are taken, the top-up.
   */
  method SelectDiversified(ranked: seq<string>, styles: map<string, string>, maxHoldings: int)
    returns (targets: seq<string>)
    requires Distinct(ranked)
    ensures targets == Selection(ranked, styles, maxHoldings)
    ensures Distinct(targets)
    ensures forall t :: t in targets ==> t in ranked
    ensures |ranked| > 0 ==> |targets| == if maxHoldings < 1 then 1
                                        else if maxHoldings < |ranked| then maxHoldings else |ranked|
    ensures |ranked| > 0 ==> targets[0] == ranked[0]
    ensures |ranked| > 1 && maxHoldings >= 2 ==> targets[1] == ranked[1]
  {
    targets := StylePass(ranked, styles, maxHoldings);
    if |targets| < maxHoldings {
      targets := TopUp(ranked, targets, maxHoldings);
    }
    SelectionFacts(ranked, styles, maxHoldings);
  }

  /** The first pass: a symbol is taken when its style is new or fewer than two are taken. */
  method StylePass(ranked: seq<string>, styles: map<string, string>, maxHoldings: int)
    returns (targets: seq<string>)
    ensures targets == FirstPass(ranked, styles, maxHoldings)
  {
    targets := [];
    var included: set<string> := {};
    var i := 0;
    while i < |ranked|
      invariant 0 <= i <= |ranked|
      invariant targets == FirstPass(ranked[..i], styles, maxHoldings)
      invariant included == StyleSet(styles, targets)
      invariant i > 0 ==> |targets| < maxHoldings
    {
      assert ranked[..i + 1][..i] == ranked[..i];
      var symbol := ranked[i];
      var style := StyleOf(styles, symbol);
      if style !in included || |targets| < 2 {
        assert (targets + [symbol])[..|targets|] == targets;
        targets := targets + [symbol];
        included := included + {style};
      }
      assert targets == FirstPass(ranked[..i + 1], styles, maxHoldings);
      if |targets| >= maxHoldings {
        assert |targets| >= 1;
        FirstPassSaturated(ranked, styles, maxHoldings, i + 1);
        return;
      }
      i := i + 1;
    }
    assert ranked[..|ranked|] == ranked;
  }

  /** The second pass: ranked symbols not yet taken are appended, in rank order, until `maxHoldings` are held. */
  method TopUp(ranked: seq<string>, first: seq<string>, maxHoldings: int)
    returns (targets: seq<string>)
    requires Distinct(ranked)
    requires |first| < maxHoldings
    ensures targets == first + PyPrefix(Untaken(ranked, first), maxHoldings - |first|)
  {
    targets := first;
    var j := 0;
    while j < |ranked|
      invariant 0 <= j <= |ranked|
      invariant targets == first + Untaken(ranked[..j], first)
      invariant |targets| < maxHoldings
    {
      TopUpStep(ranked, first, j);
      if ranked[j] !in targets {
        targets := targets + [ranked[j]];
        if |targets| >= maxHoldings {
          assert targets == first + Untaken(ranked[..j + 1], first);
          assert |first| + |Untaken(ranked[..j + 1], first)| == maxHoldings;
          TopUpFull(ranked, first, j + 1, maxHoldings);
          return;
        }
      }
      j := j + 1;
    }
    assert ranked[..|ranked|] == ranked;
  }

  /** A ranked symbol is new to the top-up exactly when it is not in `first`, and then it is the next untaken one. */
  lemma TopUpStep(ranked: seq<string>, first: seq<string>, j: nat)
    requires Distinct(ranked) && j < |ranked|
    ensures ranked[j] !in first + Untaken(ranked[..j], first) <==> ranked[j] !in first
    ensures ranked[j] !in first ==> Untaken(ranked[..j + 1], first) == Untaken(ranked[..j], first) + [ranked[j]]
    ensures ranked[j] in first ==> Untaken(ranked[..j + 1], first) == Untaken(ranked[..j], first)
  {
    UntakenStep(ranked, first, j);
    DistinctAt(ranked, j);
  }

  /** When the untaken symbols of a prefix number `n`, they are the first `n` untaken symbols of the whole. */
  lemma TopUpFull(ranked: seq<string>, first: seq<string>, j: nat, maxHoldings: int)
    requires j <= |ranked| && |first| + |Untaken(ranked[..j], first)| == maxHoldings
    ensures first + Untaken(ranked[..j], first) == first + PyPrefix(Untaken(ranked, first), maxHoldings - |first|)
  {
    UntakenPrefix(ranked, first, j);
  }

  /** The symbols of `s` in first-occurrence order, each once (the keys a dict comprehension over `s` ends with). */
  function Dedup(s: seq<string>): (u: seq<string>)
    ensures Distinct(u)
    ensures forall x :: x in u <==> x in s
    ensures |u| <= |s|
    ensures Distinct(s) ==> u == s
    decreases |s|
  {
    if |s| == 0 then []
    else
      var init := s[..|s| - 1];
      var u := Dedup(init);
      var x := s[|s| - 1];
      assert s == init + [x];
      if x in u then u else u + [x]
  }

  /**
   * `{symbol: 1.0 / len(defensive) for symbol in defensive}`: each distinct
   * defensive symbol, in first-occurrence order, at one over the length of
   * the list (duplicates included in the count).
   */
  function DefensivePositions(defensive: seq<string>): (d: seq<(string, real)>)
    ensures Keys(d) == Dedup(defensive)
    ensures DistinctKeys(d)
    ensures forall s :: HasKey(d, s) <==> s in defensive
    ensures forall i :: 0 <= i < |d| ==> |defensive| > 0 && d[i].1 == 1.0 / (|defensive| as real)
  {
    var u := Dedup(defensive);
    var d := seq(|u|, i requires 0 <= i < |u| => (u[i], 1.0 / (|defensive| as real)));
    assert forall s :: HasKey(d, s) <==> s in u by {
      forall s ensures HasKey(d, s) <==> s in u {
        if s in u {
          var i :| 0 <= i < |u| && u[i] == s;
          assert d[i].0 == s;
        }
      }
    }
    d
  }

  /** With no duplicates in the defensive list its weights sum to one, whatever the regime. */
  lemma DefensiveWeightsSumToOne(defensive: seq<string>)
    requires Distinct(defensive) && |defensive| > 0
    ensures Sum(Values(DefensivePositions(defensive))) == 1.0
  {
    var d := DefensivePositions(defensive);
    var n := |defensive| as real;
    assert |d| == |defensive|;
    SumConstant(Values(d), 1.0 / n);
    assert n * (1.0 / n) == 1.0;
  }

  function Values<K, V>(d: seq<(K, V)>): (vs: seq<V>)
    ensures |vs| == |d| && forall i :: 0 <= i < |d| ==> vs[i] == d[i].1
  {
    seq(|d|, i requires 0 <= i < |d| => d[i].1)
  }

  /** The composite of each selected symbol, looked up in the score dictionary. */
  function ScoresOf(scores: Scores, targets: seq<string>): (s: seq<real>)
    requires forall t :: t in targets ==> HasKey(scores, t)
    ensures |s| == |targets|
  {
    seq(|targets|, i requires 0 <= i < |targets| => Get(scores, targets[i]).value)
  }

  /** Pairs each symbol with its weight times the exposure. */
  function ScaledPositions(targets: seq<string>, weights: seq<real>, ratio: real): (p: seq<(string, real)>)
    requires |weights| == |targets|
    ensures |p| == |targets|
    ensures forall i :: 0 <= i < |p| ==> p[i].0 == targets[i] && p[i].1 == weights[i] * ratio
  {
    seq(|targets|, i requires 0 <= i < |targets| => (targets[i], weights[i] * ratio))
  }

  /** Each ranked symbol is a key of the score dictionary whose composite clears the threshold. */
  lemma RankedSymbolsQualify(scores: Scores, threshold: real)
    requires DistinctKeys(scores)
    ensures Distinct(Keys(Ranked(scores, threshold)))
    ensures forall t :: t in Keys(Ranked(scores, threshold)) ==> HasKey(scores, t) && Get(scores, t).value > threshold
  {
    RankedEntries(scores, threshold);
    var r := Ranked(scores, threshold);
    var syms := Keys(r);
    forall t | t in syms ensures HasKey(scores, t) && Get(scores, t).value > threshold {
      var k :| 0 <= k < |syms| && syms[k] == t;
      var j :| 0 <= j < |scores| && scores[j] == r[k];
      GetAt(scores, j);
    }
  }

  /** The selected symbols with their score-based weights, scaled by the exposure. */
  function WeightedTargets(scores: Scores, targets: seq<string>, ratio: real): (p: seq<(string, real)>)
    requires forall t :: t in targets ==> HasKey(scores, t)
    ensures Keys(p) == targets
    ensures p == ScaledPositions(targets, ScoreBasedWeighting(ScoresOf(scores, targets)), ratio)
    ensures |p| > 0 ==> Sum(Values(p)) == ratio
    ensures ratio >= 0.0 ==> forall i :: 0 <= i < |p| ==> p[i].1 >= 0.0
  {
    var weights := ScoreBasedWeighting(ScoresOf(scores, targets));
    var p := ScaledPositions(targets, weights, ratio);
    assert Keys(p) == targets;
    ScaledPositionsSum(targets, weights, ratio);
    ScaledPositionsNonNegative(targets, weights, ratio);
    p
  }

  /** Scaling weights that sum to one by `ratio` gives positions that sum to `ratio`. */
  lemma ScaledPositionsSum(targets: seq<string>, weights: seq<real>, ratio: real)
    requires |weights| == |targets|
    requires |weights| > 0 ==> Sum(weights) == 1.0
    ensures |targets| > 0 ==> Sum(Values(ScaledPositions(targets, weights, ratio))) == ratio
  {
    var v := Values(ScaledPositions(targets, weights, ratio));
    SumScaled(weights, v, ratio);
  }

  /** At full exposure the positions carry the weights unchanged. */
  lemma UnitScaledValues(targets: seq<string>, weights: seq<real>)
    requires |weights| == |targets|
    ensures Values(ScaledPositions(targets, weights, 1.0)) == weights
  {
    var v := Values(ScaledPositions(targets, weights, 1.0));
    assert forall i :: 0 <= i < |v| ==> v[i] == weights[i] * 1.0;
  }

  lemma ScaledPositionsNonNegative(targets: seq<string>, weights: seq<real>, ratio: real)
    requires |weights| == |targets|
    requires forall i :: 0 <= i < |weights| ==> weights[i] >= 0.0
    ensures ratio >= 0.0 ==> forall i :: 0 <= i < |targets| ==> ScaledPositions(targets, weights, ratio)[i].1 >= 0.0
  {
    var p := ScaledPositions(targets, weights, ratio);
    if ratio >= 0.0 {
      forall i | 0 <= i < |p| ensures p[i].1 >= 0.0 {
        ProductNonNegative(weights[i], ratio);
      }
    }
  }

  lemma ProductNonNegative(a: real, b: real)
    requires a >= 0.0 && b >= 0.0
    ensures a * b >= 0.0
  {
  }

  /** Whether the defensive basket replaces the ranking. */
  predicate Defensive(positiveCount: int, minPositiveCount: int, level: Trend)
  {
    positiveCount < minPositiveCount || level == HighRisk
  }

  /** The ranked branch of `_get_target_positions`: the two-pass selection over the ranking, weighted by score and scaled to the exposure. */
  function RankedPositions(scores: Scores, threshold: real, styles: map<string, string>, maxHoldings: int,
                           ratio: real): (positions: seq<(string, real)>)
    requires DistinctKeys(scores)
    ensures var targets := Selection(Keys(Ranked(scores, threshold)), styles, maxHoldings);
      && Keys(positions) == targets
      && (forall t :: t in targets ==> HasKey(scores, t))
      && forall i :: 0 <= i < |positions| ==> positions[i].1 == ScoreBasedWeighting(ScoresOf(scores, targets))[i] * ratio
  {
    var targets := Selection(Keys(Ranked(scores, threshold)), styles, maxHoldings);
    SelectedTargets(scores, threshold, styles, maxHoldings, targets);
    WeightedTargets(scores, targets, ratio)
  }

  /**
   * The ranked positions are empty exactly when no composite clears the
   * threshold; otherwise they hold `Cap(maxHoldings)` distinct qualifying
   * symbols (every candidate when there are fewer), led by the best one,
   * each at its score-based weight times the exposure, non-negative and
   * summing to the exposure.
   */
  lemma RankedPositionsFacts(scores: Scores, threshold: real, styles: map<string, string>, maxHoldings: int,
                             ratio: real, positions: seq<(string, real)>)
    requires DistinctKeys(scores)
    requires positions == RankedPositions(scores, threshold, styles, maxHoldings, ratio)
    ensures forall t :: t in Keys(positions) ==> HasKey(scores, t) && Get(scores, t).value > threshold
    ensures var n := |Candidates(scores, threshold)|;
      && (n == 0 <==> positions == [])
      && (n > 0 ==> |positions| == if n < Cap(maxHoldings) then n else Cap(maxHoldings))
    ensures DistinctKeys(positions)
    ensures |positions| > 0 ==> positions[0].0 == Ranked(scores, threshold)[0].0 && Sum(Values(positions)) == ratio
    ensures ratio >= 0.0 ==> forall i :: 0 <= i < |positions| ==> positions[i].1 >= 0.0
  {
    var targets := Selection(Keys(Ranked(scores, threshold)), styles, maxHoldings);
    SelectedTargets(scores, threshold, styles, maxHoldings, targets);
    assert Keys(positions) == targets;
    DistinctKeysOf(positions);
  }

  /** The selection drawn from the ranking holds qualifying symbols only, each once, led by the best one. */
  lemma SelectedTargets(scores: Scores, threshold: real, styles: map<string, string>, maxHoldings: int,
                        targets: seq<string>)
    requires DistinctKeys(scores)
    requires targets == Selection(Keys(Ranked(scores, threshold)), styles, maxHoldings)
    ensures forall t :: t in targets ==> HasKey(scores, t) && Get(scores, t).value > threshold
    ensures Distinct(targets)
    ensures var n := |Candidates(scores, threshold)|;
      |targets| == if n < Cap(maxHoldings) then n else Cap(maxHoldings)
    ensures |targets| > 0 ==> targets[0] == Ranked(scores, threshold)[0].0
  {
    var syms := Keys(Ranked(scores, threshold));
    RankedSymbolsQualify(scores, threshold);
    SelectionFacts(syms, styles, maxHoldings);
    assert |syms| == |Candidates(scores, threshold)|;
  }

  lemma DistinctKeysOf<K, V>(p: seq<(K, V)>)
    requires Distinct(Keys(p))
    ensures DistinctKeys(p)
  {
    forall i, j | 0 <= i < j < |p| ensures p[i].0 != p[j].0 {
      assert Keys(p)[i] == p[i].0 && Keys(p)[j] == p[j].0;
    }
  }

  /**
   * The defensive basket when too few symbols have positive momentum or the
   * market is high-risk; otherwise the diversified top of the ranking,
   * weighted by score and scaled to the current exposure.
   */
  method GetTargetPositions(
    positiveCount: int, minPositiveCount: int, level: Trend, defensive: seq<string>,
    scores: Scores, scoreThreshold: real, styles: map<string, string>, maxHoldings: int,
    totalPositionRatio: real)
    returns (positions: seq<(string, real)>)
    requires DistinctKeys(scores)
    ensures Defensive(positiveCount, minPositiveCount, level) ==> positions == DefensivePositions(defensive)
    ensures !Defensive(positiveCount, minPositiveCount, level) ==>
      positions == RankedPositions(scores, scoreThreshold, styles, maxHoldings, totalPositionRatio)
  {
    if Defensive(positiveCount, minPositiveCount, level) {
      return DefensivePositions(defensive);
    }
    if |scores| == 0 {
      return [];
    }
    var ranked := Ranked(scores, scoreThreshold);
    if |ranked| == 0 {
      return [];
    }
    RankedSymbolsQualify(scores, scoreThreshold);
    var symbols := Keys(ranked);
    var targets := SelectDiversified(symbols, styles, maxHoldings);
    positions := WeightedTargets(scores, targets, totalPositionRatio);
  }
}
