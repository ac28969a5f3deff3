/**
 * How the backtest engine merges the signals of several strategies into one
 * signal per symbol: a score averaged over the strategies, weighted by the
 * size of each strategy's weight change and signed by its action.
 */
module BacktestEngine {
  import opened Wrappers
  import opened Seqs
  import opened SignalGenerator

  /** The merged signal; `strategyCount` is absent from the empty-input result. */
  datatype Combined = Combined(action: string, score: real, strength: real, strategyCount: Option<nat>)

  /** One strategy's opinion on a symbol: the strategy name and its table entry. */
  type Item = (string, Details)

  /** `signal.get(key, 0)` on the weight change, as a magnitude. */
  function WeightOf(d: Details): (w: real)
    ensures w >= 0.0
  {
    Abs(OrZero(d.weightChange))
  }

  /** A buy adds `target × |weight_change|`, a sell subtracts it, anything else adds nothing. */
  function Contribution(d: Details): real
  {
    if d.action == Some("buy") then OrZero(d.targetWeight) * WeightOf(d)
    else if d.action == Some("sell") then -(OrZero(d.targetWeight) * WeightOf(d))
    else 0.0
  }

  function TotalScore(items: seq<Item>): real
  {
    if |items| == 0 then 0.0 else TotalScore(items[..|items| - 1]) + Contribution(items[|items| - 1].1)
  }

  function TotalWeight(items: seq<Item>): (t: real)
    ensures t >= 0.0
  {
    if |items| == 0 then 0.0 else TotalWeight(items[..|items| - 1]) + WeightOf(items[|items| - 1].1)
  }

  /** The action a combined score decides: beyond ±0.01 it is a buy or a sell. */
  function ActionFor(score: real): (a: string)
    ensures a == "buy" <==> score > 0.01
    ensures a == "sell" <==> score < -0.01
    ensures a == "hold" <==> -0.01 <= score <= 0.01
  {
    if score > 0.01 then "buy" else if score < -0.01 then "sell" else "hold"
  }

  /** `_calculate_combined_signal` as a value. */
  function CombinedOf(items: seq<Item>): (c: Combined)
    ensures |items| == 0 ==> c == Combined("hold", 0.0, 0.0, None)
    ensures |items| > 0 ==> c.strategyCount == Some(|items|) && c.strength == TotalWeight(items)
    ensures c.strength >= 0.0
    ensures c.action == ActionFor(c.score)
    ensures TotalWeight(items) == 0.0 ==> c.score == 0.0
  {
    if |items| == 0 then Combined("hold", 0.0, 0.0, None)
    else
      var avg := if TotalWeight(items) > 0.0 then TotalScore(items) / TotalWeight(items) else 0.0;
      Combined(ActionFor(avg), avg, TotalWeight(items), Some(|items|))
  }

  /** With some weight, the combined score is the weighted total divided by the total weight. */
  lemma CombinedScoreAverages(items: seq<Item>)
    requires TotalWeight(items) > 0.0
    ensures CombinedOf(items).score * TotalWeight(items) == TotalScore(items)
  {
    var w := TotalWeight(items);
    assert CombinedOf(items).score == TotalScore(items) / w;
  }

  /** The accumulation loop of `_calculate_combined_signal`. */
  method CalculateCombinedSignal(items: seq<Item>) returns (c: Combined)
    ensures c == CombinedOf(items)
  {
    if |items| == 0 {
      return Combined("hold", 0.0, 0.0, None);
    }
    var totalScore := 0.0;
    var totalWeight := 0.0;
    for i := 0 to |items|
      invariant totalScore == TotalScore(items[..i])
      invariant totalWeight == TotalWeight(items[..i])
    {
      var signal := items[i].1;
      var weight := OrZero(signal.weightChange);
      assert items[..i + 1][..i] == items[..i];
      if signal.action == Some("buy") {
        totalScore := totalScore + OrZero(signal.targetWeight) * Abs(weight);
      } else if signal.action == Some("sell") {
        totalScore := totalScore - OrZero(signal.targetWeight) * Abs(weight);
      }
      totalWeight := totalWeight + Abs(weight);
    }
    assert items[..|items|] == items;
    var avgScore := if totalWeight > 0.0 then totalScore / totalWeight else 0.0;
    c := Combined(ActionFor(avgScore), avgScore, totalWeight, Some(|items|));
  }

  /** With target weights in [-1, 1] the weighted score total never exceeds the total weight. */
  lemma {:induction false} ScoreWithinWeight(items: seq<Item>)
    requires forall i :: 0 <= i < |items| ==> -1.0 <= OrZero(items[i].1.targetWeight) <= 1.0
    ensures -TotalWeight(items) <= TotalScore(items) <= TotalWeight(items)
    decreases |items|
  {
    if |items| > 0 {
      var init := items[..|items| - 1];
      ScoreWithinWeight(init);
      var d := items[|items| - 1].1;
      ContributionWithinWeight(d);
      assert TotalScore(items) == TotalScore(init) + Contribution(d);
      assert TotalWeight(items) == TotalWeight(init) + WeightOf(d);
    }
  }

  lemma ContributionWithinWeight(d: Details)
    requires -1.0 <= OrZero(d.targetWeight) <= 1.0
    ensures -WeightOf(d) <= Contribution(d) <= WeightOf(d)
  {
    var t := OrZero(d.targetWeight);
    var w := WeightOf(d);
    ProductWithin(t, w);
    if d.action == Some("buy") {
      assert Contribution(d) == t * w;
    } else if d.action == Some("sell") {
      assert Contribution(d) == -(t * w);
    }
  }

  /** Scaling by a factor in [-1, 1] stays within the magnitude. */
  lemma ProductWithin(t: real, w: real)
    requires -1.0 <= t <= 1.0 && w >= 0.0
    ensures -w <= t * w <= w
  {
    NonNegativeProduct(1.0 - t, w);
    NonNegativeProduct(1.0 + t, w);
    assert (1.0 - t) * w == w - t * w;
    assert (1.0 + t) * w == w + t * w;
  }

  lemma NonNegativeProduct(a: real, b: real)
    requires a >= 0.0 && b >= 0.0
    ensures a * b >= 0.0
  {
  }

  /** The combined score is a weighted average, so target weights in [-1, 1] keep it in [-1, 1]. */
  lemma CombinedScoreBounded(items: seq<Item>)
    requires forall i :: 0 <= i < |items| ==> -1.0 <= OrZero(items[i].1.targetWeight) <= 1.0
    ensures -1.0 <= CombinedOf(items).score <= 1.0
  {
    var c := CombinedOf(items);
    var w := TotalWeight(items);
    if w > 0.0 {
      ScoreWithinWeight(items);
      CombinedScoreAverages(items);
      RatioWithinOne(c.score, w, TotalScore(items));
    }
  }

  lemma RatioWithinOne(x: real, w: real, t: real)
    requires w > 0.0 && x * w == t && -w <= t <= w
    ensures -1.0 <= x <= 1.0
  {
  }

  /** Holds (and unknown actions) add to the strength but not to the score. */
  lemma {:induction false} HoldsScoreNothing(items: seq<Item>)
    requires forall i :: 0 <= i < |items| ==> items[i].1.action != Some("buy") && items[i].1.action != Some("sell")
    ensures TotalScore(items) == 0.0
    ensures CombinedOf(items).action == "hold" && CombinedOf(items).score == 0.0
    decreases |items|
  {
    if |items| > 0 {
      HoldsScoreNothing(items[..|items| - 1]);
    }
  }

  // ---------------------------------------------------------------------------
  // Merging across strategies
  // ---------------------------------------------------------------------------

  /** The symbols named in any strategy's `signals` table. */
  function AllSymbols(infos: seq<(string, StrategyInfo)>): set<string>
  {
    if |infos| == 0 then {}
    else
      var info := infos[|infos| - 1].1;
      AllSymbols(infos[..|infos| - 1])
      + (if info.signals.Some? then Elements(Keys(info.signals.value)) else {})
  }

  /** The opinions on `symbol`, one per strategy whose table names it, in strategy order. */
  function ItemsFor(infos: seq<(string, StrategyInfo)>, symbol: string): seq<Item>
  {
    if |infos| == 0 then []
    else
      var info := infos[|infos| - 1].1;
      ItemsFor(infos[..|infos| - 1], symbol)
      + (if info.signals.Some? && HasKey(info.signals.value, symbol)
         then [(infos[|infos| - 1].0, Get(info.signals.value, symbol).value)] else [])
  }

  /** A symbol is named by some strategy exactly when it has at least one opinion. */
  lemma {:induction false} ItemsForNamed(infos: seq<(string, StrategyInfo)>, symbol: string)
    ensures symbol in AllSymbols(infos) <==> |ItemsFor(infos, symbol)| > 0
    decreases |infos|
  {
    if |infos| > 0 {
      ItemsForNamed(infos[..|infos| - 1], symbol);
      var info := infos[|infos| - 1].1;
      if info.signals.Some? {
        var table := info.signals.value;
        if HasKey(table, symbol) {
          var i :| 0 <= i < |table| && table[i].0 == symbol;
          assert Keys(table)[i] == symbol;
        }
      }
    }
  }

  /** `_combine_signals`: one merged signal for every symbol any strategy names, and no other. */
  method CombineSignals(infos: seq<(string, StrategyInfo)>) returns (combined: map<string, Combined>)
    ensures forall s :: s in combined <==> s in AllSymbols(infos)
    ensures forall s :: s in combined ==> combined[s] == CombinedOf(ItemsFor(infos, s))
  {
    var allSymbols := CollectSymbols(infos);
    combined := map[];
    var remaining := allSymbols;
    while remaining != {}
      invariant remaining <= allSymbols
      invariant forall s :: s in combined <==> s in allSymbols && s !in remaining
      invariant forall s :: s in combined ==> combined[s] == CombinedOf(ItemsFor(infos, s))
      decreases |remaining|
    {
      var symbol :| symbol in remaining;
      var c := CombineSymbol(infos, symbol);
      combined := combined[symbol := c];
      remaining := remaining - {symbol};
    }
  }

  /** The body of the merge loop for one named symbol: its opinions, then their combination. */
  method CombineSymbol(infos: seq<(string, StrategyInfo)>, symbol: string) returns (c: Combined)
    requires symbol in AllSymbols(infos)
    ensures c == CombinedOf(ItemsFor(infos, symbol))
    ensures c.strategyCount.Some? && c.strategyCount.value > 0
  {
    var symbolSignals := CollectItems(infos, symbol);
    ItemsForNamed(infos, symbol);
    if |symbolSignals| > 0 {
      c := CalculateCombinedSignal(symbolSignals);
    } else {
      assert false;
    }
  }

  /** The first loop of `_combine_signals`: the union of the tables' keys. */
  method CollectSymbols(infos: seq<(string, StrategyInfo)>) returns (symbols: set<string>)
    ensures symbols == AllSymbols(infos)
  {
    symbols := {};
    for i := 0 to |infos|
      invariant symbols == AllSymbols(infos[..i])
    {
      AllSymbolsStep(infos, i);
      var info := infos[i].1;
      if info.signals.Some? {
        var table := info.signals.value;
        var before := symbols;
        for j := 0 to |table|
          invariant symbols == before + Elements(Keys(table[..j]))
        {
          KeyElementsStep(table, j);
          symbols := symbols + {table[j].0};
        }
        assert table[..|table|] == table;
      }
    }
    assert infos[..|infos|] == infos;
  }

  lemma AllSymbolsStep(infos: seq<(string, StrategyInfo)>, i: nat)
    requires i < |infos|
    ensures infos[i].1.signals.Some? ==>
      AllSymbols(infos[..i + 1]) == AllSymbols(infos[..i]) + Elements(Keys(infos[i].1.signals.value))
    ensures infos[i].1.signals.None? ==> AllSymbols(infos[..i + 1]) == AllSymbols(infos[..i])
  {
    assert infos[..i + 1][..i] == infos[..i];
  }

  lemma KeyElementsStep(table: seq<(string, Details)>, j: nat)
    requires j < |table|
    ensures Elements(Keys(table[..j + 1])) == Elements(Keys(table[..j])) + {table[j].0}
  {
    assert Keys(table[..j + 1]) == Keys(table[..j]) + [table[j].0];
  }

  /** The inner loop of `_combine_signals`: the opinions on one symbol. */
  method CollectItems(infos: seq<(string, StrategyInfo)>, symbol: string) returns (items: seq<Item>)
    ensures items == ItemsFor(infos, symbol)
  {
    items := [];
    for i := 0 to |infos|
      invariant items == ItemsFor(infos[..i], symbol)
    {
      assert infos[..i + 1][..i] == infos[..i];
      var info := infos[i].1;
      if info.signals.Some? && HasKey(info.signals.value, symbol) {
        items := items + [(infos[i].0, Get(info.signals.value, symbol).value)];
      }
    }
    assert infos[..|infos|] == infos;
  }
}
