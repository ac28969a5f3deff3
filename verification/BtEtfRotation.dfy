/**
 * The stand-alone backtrader copy of the ETF rotation strategy: its own
 * top-N target weights, current weights, rebalance gate, risk-control pass
 * (which drops cost entries whether or not the symbol still has a feed)
 * and the rebalance that resets cost and high to the position price.
 * Its `_get_target_positions` is `EtfSelection.GetTargetPositions`.
 */
module BtEtfRotation {
  import opened Wrappers
  import opened Seqs
  import opened Utils
  import opened Risk
  import opened EtfSelection
  import opened BaseStrategy
  import opened QuantEtfRotation

  /** `_get_target_weights`: the first `maxHoldings` of the ranking (a Python slice), score-weighted, unscaled. */
  function TargetWeights(scores: Scores, threshold: real, maxHoldings: int): (w: seq<(string, real)>)
    requires DistinctKeys(scores)
    ensures Keys(w) == Keys(PyPrefix(Ranked(scores, threshold), maxHoldings))
    ensures DistinctKeys(w)
    ensures forall i :: 0 <= i < |w| ==> w[i].1 >= 0.0
    ensures |w| > 0 ==> Sum(Values(w)) == 1.0
  {
    var ranked := PyPrefix(Ranked(scores, threshold), maxHoldings);
    RankedSymbolsQualify(scores, threshold);
    var all := Keys(Ranked(scores, threshold));
    var syms := Keys(ranked);
    assert forall k :: 0 <= k < |syms| ==> syms[k] == all[k];
    assert forall t :: t in syms ==> HasKey(scores, t);
    var p := WeightedTargets(scores, syms, 1.0);
    assert DistinctKeys(p) by {
      forall i, j | 0 <= i < j < |p| ensures p[i].0 != p[j].0 {
        assert p[i].0 == syms[i] && p[j].0 == syms[j];
      }
    }
    assert forall i :: 0 <= i < |p| ==> p[i].1 >= 0.0;
    p
  }

  /**
   * The weights are `score_based_weighting` of the composites of the top
   * `maxHoldings` ranked symbols, each of which clears the threshold.
   */
  lemma TargetWeightsScored(scores: Scores, threshold: real, maxHoldings: int, syms: seq<string>)
    requires DistinctKeys(scores)
    requires syms == Keys(PyPrefix(Ranked(scores, threshold), maxHoldings))
    ensures forall t :: t in syms ==> HasKey(scores, t) && Get(scores, t).value > threshold
    ensures Values(TargetWeights(scores, threshold, maxHoldings)) == ScoreBasedWeighting(ScoresOf(scores, syms))
  {
    TopRankedQualify(scores, threshold, maxHoldings);
    var w := WeightedTargets(scores, syms, 1.0);
    assert TargetWeights(scores, threshold, maxHoldings) == w;
    UnitScaledValues(syms, ScoreBasedWeighting(ScoresOf(scores, syms)));
  }

  /** The top `maxHoldings` ranked symbols are keys whose composites clear the threshold. */
  lemma TopRankedQualify(scores: Scores, threshold: real, maxHoldings: int)
    requires DistinctKeys(scores)
    ensures forall t :: t in Keys(PyPrefix(Ranked(scores, threshold), maxHoldings)) ==>
      HasKey(scores, t) && Get(scores, t).value > threshold
  {
    RankedSymbolsQualify(scores, threshold);
    var all := Keys(Ranked(scores, threshold));
    var syms := Keys(PyPrefix(Ranked(scores, threshold), maxHoldings));
    assert forall k :: 0 <= k < |syms| ==> syms[k] == all[k];
  }

  /** With at least `maxHoldings >= 0` candidates the weights name exactly the top `maxHoldings`. */
  lemma TargetWeightsSize(scores: Scores, threshold: real, maxHoldings: int)
    requires DistinctKeys(scores) && maxHoldings >= 0
    ensures var n := |Candidates(scores, threshold)|;
      |TargetWeights(scores, threshold, maxHoldings)| == if maxHoldings < n then maxHoldings else n
  {
    assert |Ranked(scores, threshold)| == |Candidates(scores, threshold)|;
  }

  /** Whether a position appears in `_get_current_weights`: open, and under a non-empty symbol. */
  predicate Weighed(h: (string, Position))
  {
    h.1.size > 0.0 && h.0 != ""
  }

  /** A position's share of the account value. */
  function WeightOf(h: (string, Position), totalValue: real): real
    requires totalValue > 0.0
  {
    h.1.size * h.1.price / totalValue
  }

  /** `_get_current_weights` as a value: every open position's share of the account, in position order. */
  function CurrentWeightsOf(held: seq<(string, Position)>, totalValue: real): (w: seq<(string, real)>)
    ensures totalValue <= 0.0 ==> w == []
    ensures |w| <= |held|
  {
    if totalValue <= 0.0 || |held| == 0 then []
    else
      var h := held[|held| - 1];
      CurrentWeightsOf(held[..|held| - 1], totalValue) + (if Weighed(h) then [(h.0, WeightOf(h, totalValue))] else [])
  }

  /** Whether `e` is the weight entry of some open position of `held`. */
  predicate WeightEntry(held: seq<(string, Position)>, totalValue: real, e: (string, real))
    requires totalValue > 0.0
  {
    exists i :: 0 <= i < |held| && Weighed(held[i]) && e == (held[i].0, WeightOf(held[i], totalValue))
  }

  /**
   * The current weights list exactly the open, named positions, each at
   * its value over the account value; with one position per symbol, each
   * symbol once.
   */
  lemma {:induction false} CurrentWeightsEntries(held: seq<(string, Position)>, totalValue: real)
    requires totalValue > 0.0
    ensures var w := CurrentWeightsOf(held, totalValue);
      && (forall j :: 0 <= j < |w| ==> WeightEntry(held, totalValue, w[j]))
      && (forall i :: 0 <= i < |held| && Weighed(held[i]) ==> (held[i].0, WeightOf(held[i], totalValue)) in w)
      && (DistinctKeys(held) ==> DistinctKeys(w))
    decreases |held|
  {
    if |held| > 0 {
      var init := held[..|held| - 1];
      var h := held[|held| - 1];
      CurrentWeightsEntries(init, totalValue);
      var prev := CurrentWeightsOf(init, totalValue);
      var w := CurrentWeightsOf(held, totalValue);
      assert w == prev + (if Weighed(h) then [(h.0, WeightOf(h, totalValue))] else []);
      forall j | 0 <= j < |w| ensures WeightEntry(held, totalValue, w[j]) {
        if j < |prev| {
          assert WeightEntry(init, totalValue, prev[j]);
          var i :| 0 <= i < |init| && Weighed(init[i]) && prev[j] == (init[i].0, WeightOf(init[i], totalValue));
          assert held[i] == init[i];
        } else {
          assert held[|held| - 1] == h;
        }
      }
      forall i | 0 <= i < |held| && Weighed(held[i]) ensures (held[i].0, WeightOf(held[i], totalValue)) in w {
        if i < |init| {
          assert held[i] == init[i];
        }
      }
      if DistinctKeys(held) && Weighed(h) {
        forall j | 0 <= j < |prev| ensures prev[j].0 != h.0 {
          assert WeightEntry(init, totalValue, prev[j]);
          var i :| 0 <= i < |init| && Weighed(init[i]) && prev[j] == (init[i].0, WeightOf(init[i], totalValue));
          assert held[i] == init[i];
        }
      }
    }
  }

  /** `_get_current_weights`: the loop over the open positions. */
  method GetCurrentWeights(held: seq<(string, Position)>, totalValue: real) returns (weights: seq<(string, real)>)
    ensures weights == CurrentWeightsOf(held, totalValue)
  {
    if totalValue <= 0.0 {
      return [];
    }
    weights := [];
    var i := 0;
    while i < |held|
      invariant 0 <= i <= |held|
      invariant weights == CurrentWeightsOf(held[..i], totalValue)
    {
      assert held[..i + 1][..i] == held[..i];
      if Weighed(held[i]) {
        weights := weights + [(held[i].0, WeightOf(held[i], totalValue))];
      }
      i := i + 1;
    }
    assert held[..|held|] == held;
  }

  /** `target_weights.get(symbol, 0)`. */
  function WeightOr0(w: seq<(string, real)>, symbol: string): real
  {
    match Get(w, symbol)
    case Some(v) => v
    case None => 0.0
  }

  /** Whether a currently weighted symbol sits more than `threshold` from its target (absent targets count as 0). */
  function AnyDrift(current: seq<(string, real)>, target: seq<(string, real)>, threshold: real): (b: bool)
    ensures b <==> exists i :: 0 <= i < |current| && Abs(current[i].1 - WeightOr0(target, current[i].0)) > threshold
  {
    if |current| == 0 then false
    else
      var init := current[..|current| - 1];
      assert forall i :: 0 <= i < |init| ==> init[i] == current[i];
      AnyDrift(init, target, threshold) ||
        Abs(current[|current| - 1].1 - WeightOr0(target, current[|current| - 1].0)) > threshold
  }

  /**
   * `_should_rebalance`: on the rebalance weekday; otherwise, when factor
   * scores exist, when some held symbol drifts from the top-N target weights.
   */
  function ShouldRebalanceBt(weekday: int, rebalanceWeekday: int, scores: Scores, scoreThreshold: real,
                             maxHoldings: int, held: seq<(string, Position)>, totalValue: real,
                             threshold: real): (b: bool)
    requires DistinctKeys(scores)
    ensures weekday == rebalanceWeekday ==> b
    ensures weekday != rebalanceWeekday && |scores| == 0 ==> !b
    ensures weekday != rebalanceWeekday && |scores| > 0 ==>
      (b <==> AnyDrift(CurrentWeightsOf(held, totalValue), TargetWeights(scores, scoreThreshold, maxHoldings), threshold))
  {
    if weekday == rebalanceWeekday then true
    else if |scores| == 0 then false
    else AnyDrift(CurrentWeightsOf(held, totalValue), TargetWeights(scores, scoreThreshold, maxHoldings), threshold)
  }

  /** A weighted position whose symbol has no target, above the threshold, is a drift. */
  lemma UntargetedDrift(held: seq<(string, Position)>, totalValue: real, target: seq<(string, real)>,
                        threshold: real, i: nat)
    requires i < |held| && Weighed(held[i]) && totalValue > 0.0
    requires !HasKey(target, held[i].0)
    requires WeightOf(held[i], totalValue) > threshold >= 0.0
    ensures AnyDrift(CurrentWeightsOf(held, totalValue), target, threshold)
  {
    var cw := CurrentWeightsOf(held, totalValue);
    CurrentWeightsEntries(held, totalValue);
    var e := (held[i].0, WeightOf(held[i], totalValue));
    var j :| 0 <= j < |cw| && cw[j] == e;
    assert Abs(cw[j].1 - WeightOr0(target, cw[j].0)) > threshold;
  }

  /** Holding a symbol outside the top-N targets at more than the threshold forces a rebalance. */
  lemma UntargetedHoldingForcesRebalance(weekday: int, rebalanceWeekday: int, scores: Scores, scoreThreshold: real,
                                          maxHoldings: int, held: seq<(string, Position)>, totalValue: real,
                                          threshold: real, i: nat)
    requires DistinctKeys(scores) && |scores| > 0 && i < |held|
    requires Weighed(held[i]) && totalValue > 0.0
    requires !HasKey(TargetWeights(scores, scoreThreshold, maxHoldings), held[i].0)
    requires WeightOf(held[i], totalValue) > threshold >= 0.0
    ensures ShouldRebalanceBt(weekday, rebalanceWeekday, scores, scoreThreshold, maxHoldings, held, totalValue, threshold)
  {
    UntargetedDrift(held, totalValue, TargetWeights(scores, scoreThreshold, maxHoldings), threshold, i);
  }

  /**
   * The sell loop of this copy's `_check_risk_controls`: an order for each
   * sold symbol that has a feed, and its cost and high dropped either way.
   */
  method SellAndForget(book: StrategyBook, sells: seq<string>, feeds: set<string>) returns (orders: seq<Order>)
    requires book.Valid()
    modifies book
    ensures book.Valid()
    ensures orders == SellOrders(sells, feeds)
    ensures book.holdCost == old(book.holdCost) - Elements(sells)
    ensures book.holdHigh == old(book.holdHigh) - Elements(sells)
    ensures book.tradeHistory == old(book.tradeHistory)
  {
    orders := [];
    var j := 0;
    while j < |sells|
      invariant 0 <= j <= |sells|
      invariant book.Valid()
      invariant orders == SellOrders(sells[..j], feeds)
      invariant book.holdCost == old(book.holdCost) - Elements(sells[..j])
      invariant book.holdHigh == old(book.holdHigh) - Elements(sells[..j])
      invariant book.tradeHistory == old(book.tradeHistory)
    {
      SellOrdersStep(sells, j, feeds);
      PrefixElements(sells, j);
      ghost var gone := Elements(sells[..j]);
      MapMinusStep(old(book.holdCost), gone, sells[j]);
      MapMinusStep(old(book.holdHigh), gone, sells[j]);
      if sells[j] in feeds {
        orders := orders + [TargetPercent(sells[j], 0.0)];
      }
      book.Forget(sells[j]);
      j := j + 1;
    }
    assert sells[..|sells|] == sells;
  }

  /**
   * `_check_risk_controls` of this copy: stop first, take-profit only when
   * no stop fired, then the sells (cost and high dropped for every sold
   * symbol) and the reductions to a fraction of the account value.  The
   * open positions are those of the feeds, so each symbol has a feed.
   */
  method CheckRiskControlsBt(book: StrategyBook, rm: RiskManager, held: seq<(string, Position)>,
                             feeds: set<string>, totalValue: real)
    returns (orders: seq<Order>)
    requires book.Valid()
    requires forall i :: 0 <= i < |held| ==> held[i].0 in feeds
    modifies book
    ensures book.Valid()
    ensures var sells := StopSells(held, old(book.holdCost), old(book.holdHigh), feeds, rm);
      && orders == SellOrders(sells, feeds) +
           ReduceOrders(Reductions(held, old(book.holdCost), old(book.holdHigh), feeds, rm), feeds, totalValue)
      && book.holdCost == old(book.holdCost) - Elements(sells)
      && book.holdHigh == old(book.holdHigh) - Elements(sells)
    ensures book.tradeHistory == old(book.tradeHistory)
  {
    var sells, reductions := CollectExits(held, book.holdCost, book.holdHigh, feeds, rm);
    var sold := SellAndForget(book, sells, feeds);
    var reduced := ReduceAll(reductions, feeds, totalValue);
    orders := sold + reduced;
  }

  /** The held symbols the rebalance sells: open, named, and not among the targets. */
  predicate Dropped(h: (string, Position), targets: seq<(string, real)>)
  {
    h.1.size > 0.0 && h.0 != "" && !HasKey(targets, h.0)
  }

  /** The symbols the rebalance sells. */
  function DropSet(held: seq<(string, Position)>, targets: seq<(string, real)>): (d: set<string>)
    ensures forall s :: s in d <==> exists i :: 0 <= i < |held| && held[i].0 == s && Dropped(held[i], targets)
  {
    if |held| == 0 then {}
    else
      var init := held[..|held| - 1];
      var h := held[|held| - 1];
      assert forall i :: 0 <= i < |init| ==> init[i] == held[i];
      DropSet(init, targets) + (if Dropped(h, targets) then {h.0} else {})
  }

  /** The sell orders of the rebalance, in position order. */
  function RebalanceSells(held: seq<(string, Position)>, targets: seq<(string, real)>): (o: seq<Order>)
    ensures forall x :: x in o ==> x.TargetPercent? && x.percent == 0.0 && !HasKey(targets, x.symbol)
  {
    if |held| == 0 then []
    else
      var h := held[|held| - 1];
      RebalanceSells(held[..|held| - 1], targets) + (if Dropped(h, targets) then [TargetPercent(h.0, 0.0)] else [])
  }

  /** Whether a target is bought with an open position whose price then becomes its cost and high. */
  predicate Renewed(t: (string, real), held: seq<(string, Position)>, feeds: set<string>)
  {
    t.0 in feeds && Get(held, t.0).Some? && Get(held, t.0).value.size > 0.0
  }

  /** The cost and high the rebalance writes: each renewed target at its position's price. */
  function Refreshed(targets: seq<(string, real)>, held: seq<(string, Position)>, feeds: set<string>): map<string, real>
  {
    if |targets| == 0 then map[]
    else
      var t := targets[|targets| - 1];
      Refreshed(targets[..|targets| - 1], held, feeds) +
        (if Renewed(t, held, feeds) then map[t.0 := Get(held, t.0).value.price] else map[])
  }

  /** The refreshed entries are exactly the renewed targets, each at its position's price. */
  lemma {:induction false} RefreshedEntries(targets: seq<(string, real)>, held: seq<(string, Position)>, feeds: set<string>)
    ensures var r := Refreshed(targets, held, feeds);
      && (forall s :: s in r ==> Get(held, s).Some? && r[s] == Get(held, s).value.price)
      && (forall s :: s in r <==> exists i :: 0 <= i < |targets| && targets[i].0 == s && Renewed(targets[i], held, feeds))
    decreases |targets|
  {
    if |targets| > 0 {
      var init := targets[..|targets| - 1];
      RefreshedEntries(init, held, feeds);
      assert forall i :: 0 <= i < |init| ==> init[i] == targets[i];
    }
  }

  /** The buy orders of the rebalance: each target with a feed at its target percent. */
  function RebalanceBuys(targets: seq<(string, real)>, feeds: set<string>): (o: seq<Order>)
    ensures forall x :: x in o ==> x.TargetPercent? && x.symbol in feeds
  {
    if |targets| == 0 then []
    else
      var t := targets[|targets| - 1];
      RebalanceBuys(targets[..|targets| - 1], feeds) + (if t.0 in feeds then [TargetPercent(t.0, t.1)] else [])
  }

  lemma UnionUpdate(a: map<string, real>, r: map<string, real>, s: string, p: real)
    ensures (a + r)[s := p] == a + (r + map[s := p])
  {
  }

  lemma SellStep(held: seq<(string, Position)>, i: nat, targets: seq<(string, real)>)
    requires i < |held|
    ensures Dropped(held[i], targets) ==>
      && RebalanceSells(held[..i + 1], targets) == RebalanceSells(held[..i], targets) + [TargetPercent(held[i].0, 0.0)]
      && DropSet(held[..i + 1], targets) == DropSet(held[..i], targets) + {held[i].0}
    ensures !Dropped(held[i], targets) ==>
      && RebalanceSells(held[..i + 1], targets) == RebalanceSells(held[..i], targets)
      && DropSet(held[..i + 1], targets) == DropSet(held[..i], targets)
  {
    assert held[..i + 1][..i] == held[..i];
    var d := DropSet(held[..i], targets);
    assert d + {} == d;
    var o := RebalanceSells(held[..i], targets);
    assert o + [] == o;
  }

  /** The sell half of `_rebalance_portfolio`. */
  method SellUntargeted(book: StrategyBook, held: seq<(string, Position)>, targets: seq<(string, real)>)
    returns (orders: seq<Order>)
    requires book.Valid()
    modifies book
    ensures book.Valid()
    ensures orders == RebalanceSells(held, targets)
    ensures book.holdCost == old(book.holdCost) - DropSet(held, targets)
    ensures book.holdHigh == old(book.holdHigh) - DropSet(held, targets)
    ensures book.tradeHistory == old(book.tradeHistory)
  {
    orders := [];
    var i := 0;
    while i < |held|
      invariant 0 <= i <= |held|
      invariant book.Valid()
      invariant orders == RebalanceSells(held[..i], targets)
      invariant book.holdCost == old(book.holdCost) - DropSet(held[..i], targets)
      invariant book.holdHigh == old(book.holdHigh) - DropSet(held[..i], targets)
      invariant book.tradeHistory == old(book.tradeHistory)
    {
      SellStep(held, i, targets);
      if Dropped(held[i], targets) {
        MapMinusStep(old(book.holdCost), DropSet(held[..i], targets), held[i].0);
        MapMinusStep(old(book.holdHigh), DropSet(held[..i], targets), held[i].0);
        orders := orders + [TargetPercent(held[i].0, 0.0)];
        book.Forget(held[i].0);
      }
      i := i + 1;
    }
    assert held[..|held|] == held;
  }

  lemma BuyStep(targets: seq<(string, real)>, j: nat, held: seq<(string, Position)>, feeds: set<string>)
    requires j < |targets|
    ensures RebalanceBuys(targets[..j + 1], feeds) ==
      RebalanceBuys(targets[..j], feeds) + (if targets[j].0 in feeds then [TargetPercent(targets[j].0, targets[j].1)] else [])
    ensures Renewed(targets[j], held, feeds) ==>
      Refreshed(targets[..j + 1], held, feeds) ==
        Refreshed(targets[..j], held, feeds) + map[targets[j].0 := Get(held, targets[j].0).value.price]
    ensures !Renewed(targets[j], held, feeds) ==> Refreshed(targets[..j + 1], held, feeds) == Refreshed(targets[..j], held, feeds)
  {
    assert targets[..j + 1][..j] == targets[..j];
    var r := Refreshed(targets[..j], held, feeds);
    assert r + map[] == r;
  }

  /** The buy half of `_rebalance_portfolio`. */
  method BuyTargets(book: StrategyBook, held: seq<(string, Position)>, feeds: set<string>, targets: seq<(string, real)>)
    returns (orders: seq<Order>)
    requires book.Valid()
    modifies book
    ensures book.Valid()
    ensures orders == RebalanceBuys(targets, feeds)
    ensures book.holdCost == old(book.holdCost) + Refreshed(targets, held, feeds)
    ensures book.holdHigh == old(book.holdHigh) + Refreshed(targets, held, feeds)
    ensures book.tradeHistory == old(book.tradeHistory)
  {
    orders := [];
    var j := 0;
    while j < |targets|
      invariant 0 <= j <= |targets|
      invariant book.Valid()
      invariant orders == RebalanceBuys(targets[..j], feeds)
      invariant book.holdCost == old(book.holdCost) + Refreshed(targets[..j], held, feeds)
      invariant book.holdHigh == old(book.holdHigh) + Refreshed(targets[..j], held, feeds)
      invariant book.tradeHistory == old(book.tradeHistory)
    {
      var symbol := targets[j].0;
      BuyStep(targets, j, held, feeds);
      ghost var done := Refreshed(targets[..j], held, feeds);
      if symbol in feeds {
        orders := orders + [TargetPercent(symbol, targets[j].1)];
        var pos := Get(held, symbol);
        if pos.Some? && pos.value.size > 0.0 {
          UnionUpdate(old(book.holdCost), done, symbol, pos.value.price);
          UnionUpdate(old(book.holdHigh), done, symbol, pos.value.price);
          book.Reset(symbol, pos.value.price);
        }
      }
      j := j + 1;
    }
    assert targets[..|targets|] == targets;
  }

  /**
   * `_rebalance_portfolio`: sells every open position outside the targets
   * and drops its cost and high, then orders each target and, for a target
   * already held, resets cost and high to the position's price.
   */
  method RebalancePortfolio(book: StrategyBook, held: seq<(string, Position)>, feeds: set<string>,
                            targets: seq<(string, real)>)
    returns (orders: seq<Order>)
    requires book.Valid()
    modifies book
    ensures book.Valid()
    ensures orders == RebalanceSells(held, targets) + RebalanceBuys(targets, feeds)
    ensures book.holdCost == (old(book.holdCost) - DropSet(held, targets)) + Refreshed(targets, held, feeds)
    ensures book.holdHigh == (old(book.holdHigh) - DropSet(held, targets)) + Refreshed(targets, held, feeds)
    ensures book.tradeHistory == old(book.tradeHistory)
  {
    var sold := SellUntargeted(book, held, targets);
    var bought := BuyTargets(book, held, feeds, targets);
    orders := sold + bought;
  }

  /**
   * After the rebalance no symbol it sold keeps a cost, and every target
   * bought on an open position has cost and high equal to that position's
   * price; other entries are untouched.
   */
  lemma RebalanceOutcome(cost: map<string, real>, held: seq<(string, Position)>, feeds: set<string>,
                         targets: seq<(string, real)>)
    ensures var after := (cost - DropSet(held, targets)) + Refreshed(targets, held, feeds);
      && (forall i :: 0 <= i < |held| && Dropped(held[i], targets) ==> held[i].0 !in after)
      && (forall i :: 0 <= i < |targets| && Renewed(targets[i], held, feeds) ==>
            targets[i].0 in after && after[targets[i].0] == Get(held, targets[i].0).value.price)
      && (forall s :: s in cost && s !in DropSet(held, targets) && s !in Refreshed(targets, held, feeds) ==>
            s in after && after[s] == cost[s])
  {
    RefreshedEntries(targets, held, feeds);
  }
}
