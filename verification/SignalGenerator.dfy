/**
 * The signal generator: it flattens the per-strategy signal tables into
 * `Signal` records, drops holds and weak signals, ranks the rest by
 * `(score, strength)` descending, keeps a history of the ranked lists and
 * evaluates a list by counts, means and a quality score.
 */
module SignalGenerator {
  import opened Wrappers
  import opened Seqs
  import opened Sorting

  /** One symbol's entry in a strategy's `signals` table; every key may be missing. */
  datatype Details = Details(action: Option<string>, weightChange: Option<real>,
                             targetWeight: Option<real>, currentWeight: Option<real>)

  /** What one strategy reports: an optional `signals` table and an optional `reason`. */
  datatype StrategyInfo = StrategyInfo(signals: Option<seq<(string, Details)>>, reason: Option<string>)

  /** A generated signal; the timestamp is left out and the metadata kept as three fields. */
  datatype Signal = Signal(symbol: string, action: string, strength: real, score: real, reason: string,
                           currentWeight: real, targetWeight: real, weightChange: real)

  /** `d.get(key, 0)` on a numeric entry. */
  function OrZero(v: Option<real>): real
  {
    if v.Some? then v.value else 0.0
  }

  /** The signal built from one table entry: strength `|weight_change|`, score the target weight. */
  function SignalOf(symbol: string, d: Details, reason: string): (s: Signal)
    ensures s.symbol == symbol && s.reason == reason
    ensures s.action == (if d.action.Some? then d.action.value else "hold")
    ensures s.strength >= 0.0 && (s.strength == OrZero(d.weightChange) || s.strength == -OrZero(d.weightChange))
    ensures s.score == OrZero(d.targetWeight) == s.targetWeight
  {
    Signal(symbol, if d.action.Some? then d.action.value else "hold", Abs(OrZero(d.weightChange)),
           OrZero(d.targetWeight), reason, OrZero(d.currentWeight), OrZero(d.targetWeight),
           OrZero(d.weightChange))
  }

  function ReasonOf(info: StrategyInfo): string
  {
    if info.reason.Some? then info.reason.value else ""
  }

  /** The signals of one strategy's table, in table order. */
  function TableSignals(table: seq<(string, Details)>, reason: string): (r: seq<Signal>)
    ensures |r| == |table|
    ensures forall i :: 0 <= i < |r| ==> r[i] == SignalOf(table[i].0, table[i].1, reason)
  {
    if |table| == 0 then []
    else TableSignals(table[..|table| - 1], reason)
         + [SignalOf(table[|table| - 1].0, table[|table| - 1].1, reason)]
  }

  /** All signals, strategy by strategy; a strategy without a `signals` table adds none. */
  function Extracted(infos: seq<(string, StrategyInfo)>): seq<Signal>
  {
    if |infos| == 0 then []
    else
      var info := infos[|infos| - 1].1;
      Extracted(infos[..|infos| - 1])
      + (if info.signals.Some? then TableSignals(info.signals.value, ReasonOf(info)) else [])
  }

  /** Every extracted signal has a non-negative strength. */
  lemma {:induction false} ExtractedStrengths(infos: seq<(string, StrategyInfo)>)
    ensures forall i :: 0 <= i < |Extracted(infos)| ==> Extracted(infos)[i].strength >= 0.0
    decreases |infos|
  {
    if |infos| > 0 {
      ExtractedStrengths(infos[..|infos| - 1]);
    }
  }

  /** A strategy without a `signals` table contributes nothing. */
  lemma ExtractedSkips(infos: seq<(string, StrategyInfo)>, name: string, info: StrategyInfo)
    requires info.signals.None?
    ensures Extracted(infos + [(name, info)]) == Extracted(infos)
  {
    assert (infos + [(name, info)])[..|infos|] == infos;
  }

  // ---------------------------------------------------------------------------
  // Filtering
  // ---------------------------------------------------------------------------

  /** The filter's test: not a hold, strength at least 0.01, and at least 0.02 for a buy. */
  predicate Keep(s: Signal)
  {
    s.action != "hold" && s.strength >= 0.01 && (s.action != "buy" || s.strength >= 0.02)
  }

  /** `_filter_signals` as a value: the signals passing `Keep`, in their order. */
  function Kept(s: seq<Signal>): (r: seq<Signal>)
    ensures |r| <= |s|
  {
    if |s| == 0 then [] else Kept(s[..|s| - 1]) + (if Keep(s[|s| - 1]) then [s[|s| - 1]] else [])
  }

  lemma {:induction false} KeptAppend(a: seq<Signal>, b: seq<Signal>)
    ensures Kept(a + b) == Kept(a) + Kept(b)
    decreases |b|
  {
    if |b| == 0 {
      assert a + b == a;
    } else {
      var init := b[..|b| - 1];
      assert (a + b)[..|a + b| - 1] == a + init;
      KeptAppend(a, init);
    }
  }

  /** Exactly the signals that pass the test survive: none that fails, every one that passes. */
  lemma {:induction false} KeptExactly(s: seq<Signal>)
    ensures forall x :: x in Kept(s) <==> x in s && Keep(x)
    decreases |s|
  {
    if |s| > 0 {
      KeptExactly(s[..|s| - 1]);
      assert s == s[..|s| - 1] + [s[|s| - 1]];
    }
  }

  /** The filter loop: each signal is checked against the hold, weak and weak-buy conditions. */
  method FilterSignals(signals: seq<Signal>) returns (filtered: seq<Signal>)
    ensures filtered == Kept(signals)
  {
    filtered := [];
    for i := 0 to |signals|
      invariant filtered == Kept(signals[..i])
    {
      var signal := signals[i];
      assert signals[..i + 1] == signals[..i] + [signal];
      if signal.action == "hold" {
        continue;
      }
      if signal.strength < 0.01 {
        continue;
      }
      if signal.action == "buy" && signal.strength < 0.02 {
        continue;
      }
      if signal.action == "sell" && signal.strength < 0.01 {
        continue;
      }
      filtered := filtered + [signal];
    }
    assert signals[..|signals|] == signals;
  }

  // ---------------------------------------------------------------------------
  // Ranking
  // ---------------------------------------------------------------------------

  function SignalKey(s: Signal): Key
  {
    (s.score, s.strength)
  }

  /** `sorted(signals, key=(score, strength), reverse=True)`. */
  function Rank(signals: seq<Signal>): seq<Signal>
  {
    SortDesc(signals, SignalKey)
  }

  /** The ranking is a reordering of its input in descending `(score, strength)` order. */
  lemma RankSortsSignals(signals: seq<Signal>)
    ensures multiset(Rank(signals)) == multiset(signals)
    ensures forall i, j :: 0 <= i < j < |Rank(signals)| ==>
      Rank(signals)[i].score > Rank(signals)[j].score
      || (Rank(signals)[i].score == Rank(signals)[j].score
          && Rank(signals)[i].strength >= Rank(signals)[j].strength)
  {
    SortDescSorted(signals, SignalKey);
  }

  /** Signals with equal `(score, strength)` keep their order. */
  lemma RankStable(signals: seq<Signal>, k: Key)
    ensures WithKey(Rank(signals), SignalKey, k) == WithKey(signals, SignalKey, k)
  {
    SortDescStable(signals, SignalKey, k);
  }

  // ---------------------------------------------------------------------------
  // Selection by action and evaluation
  // ---------------------------------------------------------------------------

  /** `[s for s in signals if s.action == action]`. */
  function WithAction(signals: seq<Signal>, action: string): (r: seq<Signal>)
    ensures |r| <= |signals|
    ensures forall i :: 0 <= i < |r| ==> r[i].action == action && r[i] in signals
    ensures forall x :: x in signals && x.action == action ==> x in r
  {
    if |signals| == 0 then []
    else
      var init := signals[..|signals| - 1];
      var last := signals[|signals| - 1];
      assert forall x :: x in init ==> x in signals;
      WithAction(init, action) + (if last.action == action then [last] else [])
  }

  /** The filter keeps order: filtering a concatenation concatenates the filtered parts. */
  lemma {:induction false} WithActionAppend(a: seq<Signal>, b: seq<Signal>, action: string)
    ensures WithAction(a + b, action) == WithAction(a, action) + WithAction(b, action)
    decreases |b|
  {
    if |b| == 0 {
      assert a + b == a;
    } else {
      assert (a + b)[..|a + b| - 1] == a + b[..|b| - 1];
      WithActionAppend(a, b[..|b| - 1], action);
    }
  }

  /** Buys and sells never outnumber the list, and make it up exactly when every action is one of the two. */
  lemma {:induction false} BuySellCounts(signals: seq<Signal>)
    ensures |WithAction(signals, "buy")| + |WithAction(signals, "sell")| <= |signals|
    ensures (forall i :: 0 <= i < |signals| ==> signals[i].action in {"buy", "sell"}) ==>
      |WithAction(signals, "buy")| + |WithAction(signals, "sell")| == |signals|
    decreases |signals|
  {
    if |signals| > 0 {
      BuySellCounts(signals[..|signals| - 1]);
    }
  }

  function Strengths(signals: seq<Signal>): (r: seq<real>)
    ensures |r| == |signals| && forall i :: 0 <= i < |r| ==> r[i] == signals[i].strength
  {
    seq(|signals|, i requires 0 <= i < |signals| => signals[i].strength)
  }

  function Scores(signals: seq<Signal>): (r: seq<real>)
    ensures |r| == |signals| && forall i :: 0 <= i < |r| ==> r[i] == signals[i].score
  {
    seq(|signals|, i requires 0 <= i < |signals| => signals[i].score)
  }

  function Min(a: real, b: real): (m: real)
    ensures m <= a && m <= b && (m == a || m == b)
  {
    if a < b then a else b
  }

  /**
   * `_calculate_signal_quality`.  `strengthStd` is `np.std` of the
   * strengths, a floating-point kernel taken as an input.
   */
  function SignalQuality(signals: seq<Signal>, strengthStd: real): (q: real)
    ensures |signals| == 0 ==> q == 0.0
    ensures q <= 1.0
  {
    if |signals| == 0 then 0.0
    else
      var buyRatio := (|WithAction(signals, "buy")| as real) / (|signals| as real);
      var consistency := if |signals| > 1 then 1.0 - strengthStd else 1.0;
      Min(Mean(Strengths(signals)) * 0.3 + Min(Mean(Scores(signals)), 1.0) * 0.3
          + buyRatio * 0.2 + consistency * 0.2, 1.0)
  }

  /** With non-negative strengths and scores and a deviation of at most one, the quality lies in [0, 1]. */
  lemma QualityNonNegative(signals: seq<Signal>, strengthStd: real)
    requires forall i :: 0 <= i < |signals| ==> signals[i].strength >= 0.0 && signals[i].score >= 0.0
    requires strengthStd <= 1.0
    ensures 0.0 <= SignalQuality(signals, strengthStd) <= 1.0
  {
    if |signals| > 0 {
      MeanNonNegative(Strengths(signals));
      MeanNonNegative(Scores(signals));
      var buyRatio := (|WithAction(signals, "buy")| as real) / (|signals| as real);
      var consistency := if |signals| > 1 then 1.0 - strengthStd else 1.0;
      WeightedTermsNonNegative(Mean(Strengths(signals)), Mean(Scores(signals)), buyRatio, consistency);
    }
  }

  /** A mean of non-negative values is non-negative. */
  lemma MeanNonNegative(s: seq<real>)
    requires |s| > 0
    requires forall i :: 0 <= i < |s| ==> s[i] >= 0.0
    ensures Mean(s) >= 0.0
  {
    SumNonNegative(s);
  }

  lemma WeightedTermsNonNegative(strength: real, score: real, buyRatio: real, consistency: real)
    requires strength >= 0.0 && score >= 0.0 && buyRatio >= 0.0 && consistency >= 0.0
    ensures Min(strength * 0.3 + Min(score, 1.0) * 0.3 + buyRatio * 0.2 + consistency * 0.2, 1.0) >= 0.0
  {
  }

  /** The summary `evaluate_signals` returns; the two top-five lists are absent for an empty input. */
  datatype Evaluation = Evaluation(totalCount: nat, buyCount: nat, sellCount: nat,
                                   avgStrength: real, avgScore: real, quality: real,
                                   topBuys: Option<seq<Signal>>, topSells: Option<seq<Signal>>)

  function EvaluateSignals(signals: seq<Signal>, strengthStd: real): (e: Evaluation)
    ensures |signals| == 0 ==> e == Evaluation(0, 0, 0, 0.0, 0.0, 0.0, None, None)
    ensures e.totalCount == |signals| && e.buyCount + e.sellCount <= e.totalCount
    ensures e.quality <= 1.0
    ensures e.buyCount == |WithAction(signals, "buy")| && e.sellCount == |WithAction(signals, "sell")|
    ensures |signals| > 0 ==> (e.topBuys.Some? && |e.topBuys.value| <= 5
      && |e.topBuys.value| <= |WithAction(signals, "buy")|
      && e.topBuys.value == WithAction(signals, "buy")[..|e.topBuys.value|])
    ensures |signals| > 0 ==> (e.topSells.Some? && |e.topSells.value| <= 5
      && |e.topSells.value| <= |WithAction(signals, "sell")|
      && e.topSells.value == WithAction(signals, "sell")[..|e.topSells.value|])
    ensures |signals| > 0 ==> |e.topBuys.value| == (if e.buyCount < 5 then e.buyCount else 5)
    ensures |signals| > 0 ==> |e.topSells.value| == (if e.sellCount < 5 then e.sellCount else 5)
    ensures |signals| > 0 ==> e.avgStrength == Mean(Strengths(signals)) && e.avgScore == Mean(Scores(signals))
    ensures |signals| > 0 ==> e.quality == SignalQuality(signals, strengthStd)
  {
    if |signals| == 0 then Evaluation(0, 0, 0, 0.0, 0.0, 0.0, None, None)
    else
      var buys := WithAction(signals, "buy");
      var sells := WithAction(signals, "sell");
      BuySellCounts(signals);
      Evaluation(|signals|, |buys|, |sells|, Mean(Strengths(signals)), Mean(Scores(signals)),
                 SignalQuality(signals, strengthStd), Some(PyPrefix(buys, 5)), Some(PyPrefix(sells, 5)))
  }

  /** With non-negative strengths and scores, both averages of the summary are non-negative. */
  lemma EvaluationAveragesNonNegative(signals: seq<Signal>, strengthStd: real)
    requires forall i :: 0 <= i < |signals| ==> signals[i].strength >= 0.0 && signals[i].score >= 0.0
    ensures EvaluateSignals(signals, strengthStd).avgStrength >= 0.0
    ensures EvaluateSignals(signals, strengthStd).avgScore >= 0.0
  {
    if |signals| > 0 {
      MeanNonNegative(Strengths(signals));
      MeanNonNegative(Scores(signals));
    }
  }

  // ---------------------------------------------------------------------------
  // The generator and its history
  // ---------------------------------------------------------------------------

  class Generator {
    /** The ranked lists returned so far, oldest first (timestamps left out). */
    var history: seq<seq<Signal>>

    constructor ()
      ensures history == []
    {
      history := [];
    }

    /**
     * `generate_signals`: flatten, filter, rank, and record the ranked
     * list in the history.  The positions argument is unused by the source.
     */
    method GenerateSignals(infos: seq<(string, StrategyInfo)>) returns (ranked: seq<Signal>)
      modifies this
      ensures ranked == Rank(Kept(Extracted(infos)))
      ensures history == old(history) + [ranked]
    {
      var signals := ExtractSignals(infos);
      var filtered := FilterSignals(signals);
      ranked := Rank(filtered);
      history := history + [ranked];
    }
  }

  /** The two nested loops of `generate_signals` that build the raw signal list. */
  method ExtractSignals(infos: seq<(string, StrategyInfo)>) returns (signals: seq<Signal>)
    ensures signals == Extracted(infos)
  {
    signals := [];
    for i := 0 to |infos|
      invariant signals == Extracted(infos[..i])
    {
      var info := infos[i].1;
      ExtractedStep(infos, i);
      if info.signals.None? {
        continue;
      }
      var more := TableToSignals(info.signals.value, ReasonOf(info));
      signals := signals + more;
    }
    assert infos[..|infos|] == infos;
  }

  /** The inner loop of `_extract_signals`: one strategy's table, entry by entry. */
  method TableToSignals(table: seq<(string, Details)>, reason: string) returns (signals: seq<Signal>)
    ensures signals == TableSignals(table, reason)
  {
    signals := [];
    for j := 0 to |table|
      invariant signals == TableSignals(table[..j], reason)
    {
      assert table[..j + 1][..j] == table[..j];
      signals := signals + [SignalOf(table[j].0, table[j].1, reason)];
    }
    assert table[..|table|] == table;
  }

  lemma ExtractedStep(infos: seq<(string, StrategyInfo)>, i: nat)
    requires i < |infos|
    ensures infos[i].1.signals.None? ==> Extracted(infos[..i + 1]) == Extracted(infos[..i])
    ensures infos[i].1.signals.Some? ==>
      (Extracted(infos[..i + 1]) == Extracted(infos[..i]) + TableSignals(infos[i].1.signals.value, ReasonOf(infos[i].1)))
  {
    assert infos[..i + 1][..i] == infos[..i];
  }

  /** Every ranked signal passed the filter, and every signal passing it is ranked. */
  lemma GeneratedSignalsQualify(infos: seq<(string, StrategyInfo)>)
    ensures forall x :: x in Rank(Kept(Extracted(infos))) <==> x in Extracted(infos) && Keep(x)
    ensures forall x :: x in Rank(Kept(Extracted(infos))) ==> x.strength >= 0.01
  {
    var k := Kept(Extracted(infos));
    KeptExactly(Extracted(infos));
    forall x ensures x in Rank(k) <==> x in k {
      assert x in Rank(k) <==> x in multiset(Rank(k));
      assert x in k <==> x in multiset(k);
    }
  }
}
