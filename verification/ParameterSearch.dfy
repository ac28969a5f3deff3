/**
 * Parameter search: scoring one parameter combination and tracking the best
 * one, enumerating a grid in `itertools.product` order, the distance between
 * two combinations, the guard of the next-point selection, and the factory
 * that picks a search kind by name.
 */
module ParameterSearch {
  import opened Wrappers
  import opened Seqs

  /** A parameter value: numbers (ints, floats and bools in Python) or anything else, compared by equality. */
  datatype Value = Num(x: real) | Other(text: string)

  /** A parameter combination, as an insertion-ordered dictionary. */
  type Params = seq<(string, Value)>

  /** A search score; `-inf` marks a combination whose objective raised. */
  datatype Score = NegInf | Scored(value: real)

  datatype Metrics = ScoreMetric(score: real) | ErrorMetric(error: string)

  datatype SearchResult = SearchResult(params: Params, score: Score, metrics: Metrics)

  /** What `GridSearch.search` returns, or the `TypeError` its summary raises when nothing was scored. */
  datatype SearchReport = Report(bestParams: Params, bestScore: real, results: seq<SearchResult>) | NoScoreError

  /** What the objective did on one combination: returned a number or raised. */
  datatype Outcome = Returned(value: real) | Raised(error: string)

  /** The recorded score: minimising searches negate the objective. */
  function Signed(maximize: bool, v: real): (r: real)
    ensures maximize ==> r == v
    ensures !maximize ==> r == -v
  {
    if maximize then v else -v
  }

  /** Every recorded result carries a finite score and the matching metric. */
  predicate Recordable(results: seq<SearchResult>)
  {
    forall i :: 0 <= i < |results| ==>
      results[i].score.Scored? && results[i].metrics == ScoreMetric(results[i].score.value)
  }

  /** The best-so-far pair the search keeps: the first result whose score no later result strictly beats. */
  function BestOf(results: seq<SearchResult>): (b: Option<(Params, real)>)
    requires Recordable(results)
    ensures b.None? <==> |results| == 0
  {
    if |results| == 0 then None
    else
      var prev := BestOf(results[..|results| - 1]);
      var last := results[|results| - 1];
      if prev.None? || last.score.value > prev.value.1 then Some((last.params, last.score.value)) else prev
  }

  /**
   * The tracked best is a maximum of the recorded scores, attained by a
   * result with the tracked parameters, and no earlier result reaches it.
   */
  lemma {:induction false} BestIsFirstMaximum(results: seq<SearchResult>)
    requires Recordable(results) && |results| > 0
    ensures forall i :: 0 <= i < |results| ==> results[i].score.value <= BestOf(results).value.1
    ensures exists i :: (0 <= i < |results| && results[i].params == BestOf(results).value.0
      && results[i].score.value == BestOf(results).value.1
      && forall j :: 0 <= j < i ==> results[j].score.value < BestOf(results).value.1)
    decreases |results|
  {
    var n := |results|;
    var init := results[..n - 1];
    assert Recordable(init);
    if n == 1 {
      assert results[0].params == BestOf(results).value.0;
    } else {
      BestIsFirstMaximum(init);
      var b := BestOf(init).value;
      if results[n - 1].score.value > b.1 {
        assert results[n - 1].params == BestOf(results).value.0;
        forall j | 0 <= j < n - 1 ensures results[j].score.value < BestOf(results).value.1 {
          assert init[j] == results[j];
        }
      } else {
        var i :| 0 <= i < n - 1 && init[i].params == b.0 && init[i].score.value == b.1
          && forall j :: 0 <= j < i ==> init[j].score.value < b.1;
        assert results[i] == init[i];
        forall j | 0 <= j < i ensures results[j].score.value < BestOf(results).value.1 {
          assert init[j] == results[j];
        }
      }
      forall i | 0 <= i < n ensures results[i].score.value <= BestOf(results).value.1 {
        if i < n - 1 {
          assert init[i] == results[i];
        }
      }
    }
  }

  /** Recording one more result replaces the best exactly when its score is strictly greater. */
  lemma BestOfAppend(results: seq<SearchResult>, r: SearchResult)
    requires Recordable(results) && r.score.Scored? && r.metrics == ScoreMetric(r.score.value)
    ensures Recordable(results + [r])
    ensures BestOf(results).None? || r.score.value > BestOf(results).value.1 ==>
      BestOf(results + [r]) == Some((r.params, r.score.value))
    ensures BestOf(results).Some? && r.score.value <= BestOf(results).value.1 ==>
      BestOf(results + [r]) == BestOf(results)
  {
    assert (results + [r])[..|results|] == results;
  }

  /** The results `_evaluate_params` records for a list of combinations: one per objective that returned. */
  function Recorded(maximize: bool, combos: seq<Params>, objective: Params -> Outcome): (r: seq<SearchResult>)
    ensures Recordable(r)
    ensures |r| <= |combos|
  {
    if |combos| == 0 then []
    else
      var p := combos[|combos| - 1];
      Recorded(maximize, combos[..|combos| - 1], objective)
      + (match objective(p)
         case Returned(v) => [SearchResult(p, Scored(Signed(maximize, v)), ScoreMetric(Signed(maximize, v)))]
         case Raised(_) => [])
  }

  lemma RecordedStep(maximize: bool, combos: seq<Params>, i: nat, objective: Params -> Outcome)
    requires i < |combos|
    ensures objective(combos[i]).Raised? ==>
      Recorded(maximize, combos[..i + 1], objective) == Recorded(maximize, combos[..i], objective)
    ensures objective(combos[i]).Returned? ==>
      Recorded(maximize, combos[..i + 1], objective) == Recorded(maximize, combos[..i], objective)
        + [SearchResult(combos[i], Scored(Signed(maximize, objective(combos[i]).value)),
                        ScoreMetric(Signed(maximize, objective(combos[i]).value)))]
  {
    assert combos[..i + 1][..i] == combos[..i];
  }

  /** Nothing is recorded exactly when the objective raised on every combination. */
  lemma {:induction false} RecordedEmpty(maximize: bool, combos: seq<Params>, objective: Params -> Outcome)
    ensures |Recorded(maximize, combos, objective)| == 0 <==>
      forall i :: 0 <= i < |combos| ==> objective(combos[i]).Raised?
    decreases |combos|
  {
    if |combos| > 0 {
      var init := combos[..|combos| - 1];
      RecordedEmpty(maximize, init, objective);
      assert forall i :: 0 <= i < |init| ==> init[i] == combos[i];
    }
  }

  /** When the objective never raises, every combination is recorded once, in order. */
  lemma {:induction false} RecordedAll(maximize: bool, combos: seq<Params>, objective: Params -> Outcome)
    requires forall p :: objective(p).Returned?
    ensures |Recorded(maximize, combos, objective)| == |combos|
    ensures forall i :: 0 <= i < |combos| ==> Recorded(maximize, combos, objective)[i].params == combos[i]
    decreases |combos|
  {
    if |combos| > 0 {
      RecordedAll(maximize, combos[..|combos| - 1], objective);
    }
  }

  // ---------------------------------------------------------------------------
  // The Cartesian product of the value lists
  // ---------------------------------------------------------------------------

  /** `x` put in front of every tuple of `ps`. */
  function Prepend(x: Value, ps: seq<seq<Value>>): (r: seq<seq<Value>>)
    ensures |r| == |ps|
    ensures forall j :: 0 <= j < |ps| ==> r[j] == [x] + ps[j]
  {
    seq(|ps|, j requires 0 <= j < |ps| => [x] + ps[j])
  }

  /** Each of `xs` in turn, in front of every tuple of `ps`: the first position varies slowest. */
  function Spread(xs: seq<Value>, ps: seq<seq<Value>>): seq<seq<Value>>
  {
    if |xs| == 0 then [] else Prepend(xs[0], ps) + Spread(xs[1..], ps)
  }

  /** `itertools.product(*lists)`: the empty product has one empty tuple, and the last list varies fastest. */
  function Product(lists: seq<seq<Value>>): seq<seq<Value>>
  {
    if |lists| == 0 then [[]] else Spread(lists[0], Product(lists[1..]))
  }

  /** The number of combinations: the product of the list lengths, as `total_combinations` counts it. */
  function CombinationCount(lists: seq<seq<Value>>): nat
  {
    if |lists| == 0 then 1 else |lists[0]| * CombinationCount(lists[1..])
  }

  lemma {:induction false} SpreadLength(xs: seq<Value>, ps: seq<seq<Value>>)
    ensures |Spread(xs, ps)| == |xs| * |ps|
    decreases |xs|
  {
    if |xs| > 0 {
      SpreadLength(xs[1..], ps);
      assert |xs| * |ps| == |ps| + (|xs| - 1) * |ps|;
    }
  }

  /** The grid has exactly `Π len(values)` combinations. */
  lemma {:induction false} ProductCount(lists: seq<seq<Value>>)
    ensures |Product(lists)| == CombinationCount(lists)
    decreases |lists|
  {
    if |lists| > 0 {
      ProductCount(lists[1..]);
      SpreadLength(lists[0], Product(lists[1..]));
    }
  }

  lemma {:induction false} SpreadMember(xs: seq<Value>, ps: seq<seq<Value>>, c: seq<Value>)
    ensures c in Spread(xs, ps) <==> |c| > 0 && c[0] in xs && c[1..] in ps
    decreases |xs|
  {
    if |xs| > 0 {
      SpreadMember(xs[1..], ps, c);
      if c in Prepend(xs[0], ps) {
        var j :| 0 <= j < |ps| && Prepend(xs[0], ps)[j] == c;
        assert c[1..] == ps[j];
      }
      if |c| > 0 && c[0] == xs[0] && c[1..] in ps {
        var j :| 0 <= j < |ps| && ps[j] == c[1..];
        assert Prepend(xs[0], ps)[j] == c;
      }
      assert |c| > 0 ==> (c[0] in xs <==> c[0] == xs[0] || c[0] in xs[1..]) by {
        if |c| > 0 && c[0] in xs {
          var k :| 0 <= k < |xs| && xs[k] == c[0];
          if k > 0 {
            assert xs[1..][k - 1] == c[0];
          }
        }
      }
    }
  }

  /** The grid holds exactly the tuples that take each position from the matching value list. */
  lemma {:induction false} ProductMember(lists: seq<seq<Value>>, c: seq<Value>)
    ensures c in Product(lists) <==> |c| == |lists| && forall i :: 0 <= i < |c| ==> c[i] in lists[i]
    decreases |lists|
  {
    if |lists| == 0 {
      if c in Product(lists) {
        assert c == [];
      }
    } else {
      SpreadMember(lists[0], Product(lists[1..]), c);
      if |c| > 0 {
        ProductMember(lists[1..], c[1..]);
        if |c| == |lists| && forall i :: 0 <= i < |c| ==> c[i] in lists[i] {
          forall i | 0 <= i < |c[1..]| ensures c[1..][i] in lists[1..][i] {
            assert c[i + 1] in lists[i + 1];
          }
        }
        if c in Product(lists) {
          forall i | 0 <= i < |c| ensures c[i] in lists[i] {
            if i > 0 {
              assert c[1..][i - 1] in lists[1..][i - 1];
            }
          }
        }
      }
    }
  }

  lemma DistinctConcat<T>(a: seq<T>, b: seq<T>)
    requires Distinct(a) && Distinct(b)
    requires forall x :: x in a ==> x !in b
    ensures Distinct(a + b)
  {
    forall i, j | 0 <= i < j < |a + b| ensures (a + b)[i] != (a + b)[j] {
      if i < |a| && j >= |a| {
        assert (a + b)[i] in a;
        assert (a + b)[j] == b[j - |a|];
      }
    }
  }

  lemma {:induction false} SpreadDistinct(xs: seq<Value>, ps: seq<seq<Value>>)
    requires Distinct(xs) && Distinct(ps)
    ensures Distinct(Spread(xs, ps))
    decreases |xs|
  {
    if |xs| > 0 {
      var head := Prepend(xs[0], ps);
      assert Distinct(xs[1..]);
      SpreadDistinct(xs[1..], ps);
      assert Distinct(head) by {
        forall i, j | 0 <= i < j < |head| ensures head[i] != head[j] {
          assert head[i][1..] == ps[i] && head[j][1..] == ps[j];
        }
      }
      forall c | c in head ensures c !in Spread(xs[1..], ps) {
        SpreadMember(xs[1..], ps, c);
        assert c[0] == xs[0];
      }
      DistinctConcat(head, Spread(xs[1..], ps));
    }
  }

  /** With duplicate-free value lists, no combination is enumerated twice. */
  lemma {:induction false} ProductDistinct(lists: seq<seq<Value>>)
    requires forall i :: 0 <= i < |lists| ==> Distinct(lists[i])
    ensures Distinct(Product(lists))
    decreases |lists|
  {
    if |lists| > 0 {
      ProductDistinct(lists[1..]);
      SpreadDistinct(lists[0], Product(lists[1..]));
    }
  }

  /** `dict(zip(names, combo))`. */
  function Zip(names: seq<string>, combo: seq<Value>): (p: Params)
    requires |names| == |combo|
    ensures |p| == |names|
    ensures forall i :: 0 <= i < |p| ==> p[i] == (names[i], combo[i])
  {
    seq(|names|, i requires 0 <= i < |names| => (names[i], combo[i]))
  }

  function ValueLists(space: seq<(string, seq<Value>)>): (vs: seq<seq<Value>>)
    ensures |vs| == |space|
    ensures forall i :: 0 <= i < |space| ==> vs[i] == space[i].1
  {
    seq(|space|, i requires 0 <= i < |space| => space[i].1)
  }

  /** The parameter dictionaries of the grid, in product order. */
  function GridCombinations(space: seq<(string, seq<Value>)>): (r: seq<Params>)
  {
    var combos := Product(ValueLists(space));
    ProductLengths(ValueLists(space));
    seq(|combos|, i requires 0 <= i < |combos| => Zip(Keys(space), combos[i]))
  }

  lemma ProductLengths(lists: seq<seq<Value>>)
    ensures forall c :: c in Product(lists) ==> |c| == |lists|
  {
    forall c | c in Product(lists) ensures |c| == |lists| {
      ProductMember(lists, c);
    }
  }

  /** The grid's size is the product of the value-list lengths. */
  lemma GridSize(space: seq<(string, seq<Value>)>)
    ensures |GridCombinations(space)| == CombinationCount(ValueLists(space))
  {
    ProductCount(ValueLists(space));
  }

  /** A grid with an empty value list has no combination, so a search over it records nothing. */
  lemma EmptyAxisRecordsNothing(maximize: bool, name: string, objective: Params -> Outcome)
    ensures Recorded(maximize, GridCombinations([(name, [])]), objective) == []
  {
    GridSize([(name, [])]);
    assert CombinationCount(ValueLists([(name, [])])) == 0;
  }

  // ---------------------------------------------------------------------------
  // Parameter distance
  // ---------------------------------------------------------------------------

  /** Distance of two values: `|a − b|` for numbers, otherwise 0 when equal and 1 when not. */
  function ValueDistance(a: Value, b: Value): (d: real)
    ensures d >= 0.0
    ensures a == b ==> d == 0.0
    ensures !(a.Num? && b.Num?) ==> (d == 0.0 <==> a == b) && (d == 0.0 || d == 1.0)
  {
    if a.Num? && b.Num? then Abs(a.x - b.x) else if a == b then 0.0 else 1.0
  }

  /** The per-key distances, in the order of `p1`'s keys, over the keys `p2` also has. */
  function SharedDistances(p1: Params, p2: Params): (ds: seq<real>)
    ensures |ds| <= |p1|
    decreases |p1|
  {
    if |p1| == 0 then []
    else
      var (k, v) := p1[|p1| - 1];
      SharedDistances(p1[..|p1| - 1], p2)
      + (if HasKey(p2, k) then [ValueDistance(v, Get(p2, k).value)] else [])
  }

  datatype Distance = Infinite | Finite(value: real)

  /** `_calculate_distance`: infinite for an empty side or no shared key, else the mean per-key distance. */
  function DistanceOf(p1: Params, p2: Params): Distance
  {
    if |p1| == 0 || |p2| == 0 then Infinite
    else
      var ds := SharedDistances(p1, p2);
      if |ds| == 0 then Infinite else Finite(Mean(ds))
  }

  /** The loop of `_calculate_distance`. */
  method CalculateDistance(p1: Params, p2: Params) returns (d: Distance)
    ensures d == DistanceOf(p1, p2)
  {
    if |p1| == 0 || |p2| == 0 {
      return Infinite;
    }
    var distances := [];
    for i := 0 to |p1|
      invariant distances == SharedDistances(p1[..i], p2)
    {
      assert p1[..i + 1][..i] == p1[..i];
      var (key, val1) := p1[i];
      if HasKey(p2, key) {
        var val2 := Get(p2, key).value;
        distances := distances + [ValueDistance(val1, val2)];
      }
    }
    assert p1[..|p1|] == p1;
    d := if |distances| > 0 then Finite(Mean(distances)) else Infinite;
  }

  lemma {:induction false} SharedDistancesNone(p1: Params, p2: Params)
    ensures |SharedDistances(p1, p2)| == 0 <==> forall i :: 0 <= i < |p1| ==> !HasKey(p2, p1[i].0)
    decreases |p1|
  {
    if |p1| > 0 {
      SharedDistancesNone(p1[..|p1| - 1], p2);
    }
  }

  lemma {:induction false} SharedDistancesNonNegative(p1: Params, p2: Params)
    ensures forall i :: 0 <= i < |SharedDistances(p1, p2)| ==> SharedDistances(p1, p2)[i] >= 0.0
    decreases |p1|
  {
    if |p1| > 0 {
      SharedDistancesNonNegative(p1[..|p1| - 1], p2);
    }
  }

  /** The distance is infinite exactly when a side is empty or no key is shared, and never negative. */
  lemma DistanceCases(p1: Params, p2: Params)
    ensures DistanceOf(p1, p2).Infinite? <==>
      |p1| == 0 || |p2| == 0 || forall i :: 0 <= i < |p1| ==> !HasKey(p2, p1[i].0)
    ensures DistanceOf(p1, p2).Finite? ==> DistanceOf(p1, p2).value >= 0.0
  {
    SharedDistancesNone(p1, p2);
    var ds := SharedDistances(p1, p2);
    if |p1| > 0 && |p2| > 0 && |ds| > 0 {
      SharedDistancesNonNegative(p1, p2);
      SumNonNegative(ds);
    }
  }

  lemma {:induction false} SelfDistancesZero(p: Params, n: nat)
    requires DistinctKeys(p) && n <= |p|
    ensures |SharedDistances(p[..n], p)| == n
    ensures forall i :: 0 <= i < n ==> SharedDistances(p[..n], p)[i] == 0.0
    decreases n
  {
    if n > 0 {
      assert p[..n][..n - 1] == p[..n - 1];
      SelfDistancesZero(p, n - 1);
      GetAt(p, n - 1);
    }
  }

  /** A non-empty combination is at distance zero from itself. */
  lemma SelfDistance(p: Params)
    requires DistinctKeys(p) && |p| > 0
    ensures DistanceOf(p, p) == Finite(0.0)
  {
    var ds := SharedDistances(p, p);
    SelfDistancesZero(p, |p|);
    assert p[..|p|] == p;
    SumConstant(ds, 0.0);
    assert Sum(ds) == 0.0;
    assert Mean(ds) == 0.0;
  }

  // ---------------------------------------------------------------------------
  // The search state
  // ---------------------------------------------------------------------------

  /** The state a `ParameterSearch` keeps: every recorded result, and the best so far. */
  class Searcher {
    const maximize: bool
    var results: seq<SearchResult>
    var bestParams: Option<Params>
    var bestScore: Option<real>

    /** The best pair is the one `BestOf` picks from the recorded results. */
    ghost predicate Valid()
      reads this
    {
      Recordable(results)
      && (BestOf(results).None? ==> bestParams.None? && bestScore.None?)
      && (BestOf(results).Some? ==>
            bestParams == Some(BestOf(results).value.0) && bestScore == Some(BestOf(results).value.1))
    }

    constructor (maximize: bool)
      ensures Valid()
      ensures this.maximize == maximize && results == [] && bestParams.None? && bestScore.None?
    {
      this.maximize := maximize;
      results := [];
      bestParams := None;
      bestScore := None;
    }

    /** `_evaluate_params`: a raising objective yields `-inf` and changes nothing; otherwise the result is recorded. */
    method EvaluateParams(params: Params, outcome: Outcome) returns (r: SearchResult)
      requires Valid()
      modifies this
      ensures Valid()
      ensures outcome.Raised? ==> (r == SearchResult(params, NegInf, ErrorMetric(outcome.error))
        && results == old(results) && bestParams == old(bestParams) && bestScore == old(bestScore))
      ensures outcome.Returned? ==>
        (r == SearchResult(params, Scored(Signed(maximize, outcome.value)), ScoreMetric(Signed(maximize, outcome.value)))
        && results == old(results) + [r])
    {
      match outcome
      case Raised(e) =>
        r := SearchResult(params, NegInf, ErrorMetric(e));
      case Returned(v) =>
        var score := if maximize then v else -v;
        r := SearchResult(params, Scored(score), ScoreMetric(score));
        BestOfAppend(results, r);
        results := results + [r];
        if bestScore.None? || score > bestScore.value {
          bestScore := Some(score);
          bestParams := Some(params);
        }
    }

    /**
     * Serial `GridSearch.search`: every combination of the grid, in product
     * order, through `_evaluate_params`; then the summary, whose formatting
     * of the best score raises a `TypeError` when no score was ever recorded.
     */
    method GridSearch(space: seq<(string, seq<Value>)>, objective: Params -> Outcome) returns (report: SearchReport)
      requires Valid()
      modifies this
      ensures Valid()
      ensures results == old(results) + Recorded(maximize, GridCombinations(space), objective)
      ensures report == NoScoreError <==> |results| == 0
      ensures report.Report? ==>
        report == Report(BestOf(results).value.0, BestOf(results).value.1, results)
    {
      var combos := GridCombinations(space);
      EvaluateAll(combos, objective);
      if bestScore.None? {
        return NoScoreError;
      }
      report := Report(bestParams.value, bestScore.value, results);
    }

    /** The serial loop of `GridSearch.search`: each combination in turn through `_evaluate_params`. */
    method EvaluateAll(combos: seq<Params>, objective: Params -> Outcome)
      requires Valid()
      modifies this
      ensures Valid()
      ensures results == old(results) + Recorded(maximize, combos, objective)
    {
      for i := 0 to |combos|
        invariant Valid()
        invariant results == old(results) + Recorded(maximize, combos[..i], objective)
      {
        RecordedStep(maximize, combos, i, objective);
        var r := EvaluateParams(combos[i], objective(combos[i]));
      }
      assert combos[..|combos|] == combos;
    }

    /**
     * `_select_next_params`: nothing before two results exist; otherwise the
     * first candidate with the highest UCB score. The candidates and the UCB
     * score are given.
     */
    method SelectNextParams(candidates: seq<Params>, ucb: Params -> real) returns (next: Option<Params>)
      ensures |results| < 2 || |candidates| == 0 ==> next.None?
      ensures |results| >= 2 && |candidates| > 0 ==> next.Some?
      ensures next.Some? ==> forall j :: 0 <= j < |candidates| ==> ucb(candidates[j]) <= ucb(next.value)
      ensures next.Some? ==> exists k :: (0 <= k < |candidates| && candidates[k] == next.value
        && forall j :: 0 <= j < k ==> ucb(candidates[j]) < ucb(next.value))
    {
      if |results| < 2 {
        return None;
      }
      next := None;
      var bestUcb := 0.0;
      ghost var at := 0;
      for i := 0 to |candidates|
        invariant i == 0 <==> next.None?
        invariant next.Some? ==> 0 <= at < i && candidates[at] == next.value && bestUcb == ucb(next.value)
        invariant next.Some? ==> forall j :: 0 <= j < i ==> ucb(candidates[j]) <= bestUcb
        invariant next.Some? ==> forall j :: 0 <= j < at ==> ucb(candidates[j]) < bestUcb
      {
        var score := ucb(candidates[i]);
        if next.None? || score > bestUcb {
          bestUcb := score;
          next := Some(candidates[i]);
          at := i;
        }
      }
    }
  }

  /** Every grid search keeps the best as the first maximum of the recorded scores. */
  lemma GridSearchBest(results: seq<SearchResult>, bestScore: Option<real>, bestParams: Option<Params>)
    requires Recordable(results) && |results| > 0
    requires bestParams == Some(BestOf(results).value.0) && bestScore == Some(BestOf(results).value.1)
    ensures forall i :: 0 <= i < |results| ==> results[i].score.value <= bestScore.value
    ensures exists i :: (0 <= i < |results| && results[i].params == bestParams.value
      && results[i].score.value == bestScore.value)
  {
    BestIsFirstMaximum(results);
  }

  // ---------------------------------------------------------------------------
  // Choosing a search by name
  // ---------------------------------------------------------------------------

  datatype SearchKind = Grid | Random | Bayesian

  /** ASCII `str.lower()`. */
  function Lower(s: string): (r: string)
    ensures |r| == |s|
    ensures forall i :: 0 <= i < |s| ==> r[i] == (if 'A' <= s[i] <= 'Z' then (s[i] as int + 32) as char else s[i])
  {
    seq(|s|, i requires 0 <= i < |s| => if 'A' <= s[i] <= 'Z' then (s[i] as int + 32) as char else s[i])
  }

  lemma LowerIdempotent(s: string)
    ensures Lower(Lower(s)) == Lower(s)
  {
  }

  /**
   * `create_parameter_search`: a `ValueError` (here `None`) when the objective
   * or the space is missing or the type is not one of the three names.
   */
  function CreateParameterSearch(searchType: string, hasObjective: bool, hasSpace: bool): (k: Option<SearchKind>)
    ensures !hasObjective || !hasSpace ==> k.None?
    ensures k == Some(Grid) <==> hasObjective && hasSpace && Lower(searchType) == "grid"
    ensures k == Some(Random) <==> hasObjective && hasSpace && Lower(searchType) == "random"
    ensures k == Some(Bayesian) <==> hasObjective && hasSpace && Lower(searchType) == "bayesian"
  {
    if !hasObjective || !hasSpace then None
    else
      var t := Lower(searchType);
      if t == "grid" then Some(Grid)
      else if t == "random" then Some(Random)
      else if t == "bayesian" then Some(Bayesian)
      else None
  }

  /** The dispatch ignores case. */
  lemma CreateIgnoresCase(searchType: string, hasObjective: bool, hasSpace: bool)
    ensures CreateParameterSearch(searchType, hasObjective, hasSpace)
         == CreateParameterSearch(Lower(searchType), hasObjective, hasSpace)
  {
    LowerIdempotent(searchType);
  }
}
