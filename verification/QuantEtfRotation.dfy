/**
 * The decision steps of the backtrader ETF rotation strategy built on the
 * strategy base class: trade signals from target weights, the rebalance
 * gate, the per-position exit check and the risk-control pass over the
 * open positions.  Target positions come from `EtfSelection`.
 */
module QuantEtfRotation {
  import opened Seqs
  import opened Risk
  import opened BaseStrategy

  datatype Action = Buy | Sell | Hold

  /** One entry of the `signals` dictionary. */
  datatype Signal = Signal(action: Action, currentWeight: real, targetWeight: real, weightChange: real)

  /** Buy above a one-point band around the current weight, sell below it, hold inside it. */
  function SignalFor(target: real, current: real): (s: Signal)
    ensures s.action == Buy <==> target > current + 0.01
    ensures s.action == Sell <==> target < current - 0.01
    ensures s.currentWeight == current && s.targetWeight == target
    ensures s.weightChange == if s.action == Hold then 0.0 else target - current
  {
    if target > current + 0.01 then Signal(Buy, current, target, target - current)
    else if target < current - 0.01 then Signal(Sell, current, target, target - current)
    else Signal(Hold, current, target, 0.0)
  }

  /** A buy moves the weight up by more than the band, a sell down by more, a hold is within it. */
  lemma SignalChangeBounds(target: real, current: real)
    ensures var s := SignalFor(target, current);
      && (s.action == Buy ==> s.weightChange > 0.01)
      && (s.action == Sell ==> s.weightChange < -0.01)
      && (s.action == Hold ==> s.weightChange == 0.0 && Abs(target - current) <= 0.01)
  {
  }

  /**
   * `generate_signals` after the factors and targets are in place: one
   * signal per target symbol, in the targets' order, against the symbol's
   * current weight.
   */
  function GenerateSignals(targets: seq<(string, real)>, feeds: set<string>,
                           positions: map<string, Position>, totalValue: real): (sig: seq<(string, Signal)>)
    ensures Keys(sig) == Keys(targets)
    ensures forall i :: 0 <= i < |sig| ==>
      sig[i].1 == SignalFor(targets[i].1, PositionWeight(targets[i].0, feeds, positions, totalValue))
  {
    seq(|targets|, i requires 0 <= i < |targets| =>
      (targets[i].0, SignalFor(targets[i].1, PositionWeight(targets[i].0, feeds, positions, totalValue))))
  }

  /** Whether some target symbol's current weight is more than `threshold` away from its target. */
  function Drifted(targets: seq<(string, real)>, feeds: set<string>, positions: map<string, Position>,
                   totalValue: real, threshold: real): (b: bool)
    ensures b <==> exists i :: 0 <= i < |targets| &&
                     Abs(PositionWeight(targets[i].0, feeds, positions, totalValue) - targets[i].1) > threshold
  {
    if |targets| == 0 then false
    else
      var init := targets[..|targets| - 1];
      var last := targets[|targets| - 1];
      var r := Drifted(init, feeds, positions, totalValue, threshold);
      assert forall i :: 0 <= i < |init| ==> init[i] == targets[i];
      r || Abs(PositionWeight(last.0, feeds, positions, totalValue) - last.1) > threshold
  }

  /** `_should_rebalance`: on the rebalance weekday, or when a target has drifted. */
  function ShouldRebalance(weekday: int, rebalanceWeekday: int, targets: seq<(string, real)>,
                           feeds: set<string>, positions: map<string, Position>,
                           totalValue: real, threshold: real): (b: bool)
    ensures b <==> (weekday == rebalanceWeekday || Drifted(targets, feeds, positions, totalValue, threshold))
  {
    weekday == rebalanceWeekday || Drifted(targets, feeds, positions, totalValue, threshold)
  }

  /** The outcome of `check_exit_conditions`. */
  datatype ExitInfo = NoExit | StopExit(reason: StopReason) | ReduceExit(ratio: real)

  /** `hold_high.get(symbol, current)`. */
  function HighOr(holdHigh: map<string, real>, symbol: string, current: real): real
  {
    if symbol in holdHigh then holdHigh[symbol] else current
  }

  /** Whether the exit check looks at this symbol at all: a recorded cost, a feed and an open position. */
  predicate ExitEligible(symbol: string, position: Position, holdCost: map<string, real>, feeds: set<string>)
  {
    symbol in holdCost && symbol in feeds && position.size > 0.0
  }

  /**
   * `check_exit_conditions`: no exit for a symbol without a recorded cost,
   * feed or open position; otherwise the risk manager's stop check, and
   * only when it does not fire, its take-profit check.
   */
  function CheckExitConditions(symbol: string, position: Position, holdCost: map<string, real>,
                               holdHigh: map<string, real>, feeds: set<string>, rm: RiskManager): (e: ExitInfo)
    reads rm
    ensures !ExitEligible(symbol, position, holdCost, feeds) ==> e == NoExit
    ensures e.StopExit? <==>
      (ExitEligible(symbol, position, holdCost, feeds) &&
       rm.CheckStopLoss(position.price, holdCost[symbol], HighOr(holdHigh, symbol, position.price)).0)
    ensures e.ReduceExit? <==>
      (ExitEligible(symbol, position, holdCost, feeds) &&
       !rm.CheckStopLoss(position.price, holdCost[symbol], HighOr(holdHigh, symbol, position.price)).0 &&
       rm.CheckTakeProfit(position.price, holdCost[symbol]).0)
    ensures e.ReduceExit? ==> e.ratio == 0.5
  {
    if symbol !in holdCost || symbol !in feeds then NoExit
    else if position.size <= 0.0 then NoExit
    else
      var current := position.price;
      var cost := holdCost[symbol];
      var stop := rm.CheckStopLoss(current, cost, HighOr(holdHigh, symbol, current));
      if stop.0 then StopExit(stop.1)
      else
        var tp := rm.CheckTakeProfit(current, cost);
        if tp.0 then ReduceExit(tp.1) else NoExit
  }

  /**
   * In price terms, for a positive cost: a stop exit is a price below
   * cost·(1 − stop) or, with a positive high, below high·(1 − trailing);
   * a take-profit reduction is a price above cost·(1 + take-profit) that
   * is clear of both stops.
   */
  lemma ExitPriceLevels(symbol: string, position: Position, holdCost: map<string, real>,
                        holdHigh: map<string, real>, feeds: set<string>, rm: RiskManager)
    requires ExitEligible(symbol, position, holdCost, feeds) && holdCost[symbol] > 0.0
    ensures var e := CheckExitConditions(symbol, position, holdCost, holdHigh, feeds, rm);
      var cost := holdCost[symbol];
      var high := HighOr(holdHigh, symbol, position.price);
      && (e.StopExit? <==> (position.price < cost * (1.0 - rm.dynamicStopLoss) ||
                            (high > 0.0 && position.price < high * (1.0 - rm.dynamicTrailingStop))))
      && (e.ReduceExit? <==> (position.price >= cost * (1.0 - rm.dynamicStopLoss) &&
                              !(high > 0.0 && position.price < high * (1.0 - rm.dynamicTrailingStop)) &&
                              position.price > cost * (1.0 + rm.dynamicTakeProfit)))
  {
    var cost := holdCost[symbol];
    var high := HighOr(holdHigh, symbol, position.price);
    StopDecisionPriceLevels(rm.dynamicStopLoss, rm.dynamicTrailingStop, position.price, cost, high);
    TakeProfitPriceLevel(rm.dynamicTakeProfit, position.price, cost);
  }

  /** An order handed to the broker: a target percent of the account, or a target value. */
  datatype Order = TargetPercent(symbol: string, percent: real) | TargetValue(symbol: string, value: real)

  /** The exit of one open position in the risk-control pass (positions without a cost are skipped). */
  function ExitOf(h: (string, Position), holdCost: map<string, real>, holdHigh: map<string, real>,
                  feeds: set<string>, rm: RiskManager): (e: ExitInfo)
    reads rm
    ensures e.ReduceExit? ==> e.ratio == 0.5
  {
    if h.1.size <= 0.0 || h.0 !in holdCost then NoExit
    else CheckExitConditions(h.0, h.1, holdCost, holdHigh, feeds, rm)
  }

  /** The symbols the pass sells outright, in position order. */
  function StopSells(held: seq<(string, Position)>, holdCost: map<string, real>, holdHigh: map<string, real>,
                     feeds: set<string>, rm: RiskManager): (s: seq<string>)
    reads rm
    ensures forall x :: x in s ==>
      exists i :: 0 <= i < |held| && held[i].0 == x && ExitOf(held[i], holdCost, holdHigh, feeds, rm).StopExit?
    ensures forall i :: 0 <= i < |held| && ExitOf(held[i], holdCost, holdHigh, feeds, rm).StopExit? ==> held[i].0 in s
  {
    if |held| == 0 then []
    else
      var init := held[..|held| - 1];
      var h := held[|held| - 1];
      var s := StopSells(init, holdCost, holdHigh, feeds, rm);
      assert forall i :: 0 <= i < |init| ==> init[i] == held[i];
      s + (if ExitOf(h, holdCost, holdHigh, feeds, rm).StopExit? then [h.0] else [])
  }

  /** Whether some position of `held` under `symbol` gets a take-profit reduction. */
  predicate ReducedIn(held: seq<(string, Position)>, holdCost: map<string, real>, holdHigh: map<string, real>,
                      feeds: set<string>, rm: RiskManager, symbol: string)
    reads rm
  {
    exists i :: 0 <= i < |held| && held[i].0 == symbol && ExitOf(held[i], holdCost, holdHigh, feeds, rm).ReduceExit?
  }

  /** The positions the pass cuts back, with the ratio the take-profit check gave, in position order. */
  function Reductions(held: seq<(string, Position)>, holdCost: map<string, real>, holdHigh: map<string, real>,
                      feeds: set<string>, rm: RiskManager): (r: seq<(string, real)>)
    reads rm
    ensures forall j :: 0 <= j < |r| ==> r[j].1 == 0.5
    ensures forall j :: 0 <= j < |r| ==> ReducedIn(held, holdCost, holdHigh, feeds, rm, r[j].0)
    ensures forall i :: 0 <= i < |held| && ExitOf(held[i], holdCost, holdHigh, feeds, rm).ReduceExit? ==>
      (held[i].0, 0.5) in r
  {
    if |held| == 0 then []
    else
      var init := held[..|held| - 1];
      var h := held[|held| - 1];
      var prev := Reductions(init, holdCost, holdHigh, feeds, rm);
      assert forall i :: 0 <= i < |init| ==> init[i] == held[i];
      var e := ExitOf(h, holdCost, holdHigh, feeds, rm);
      var res := prev + (if e.ReduceExit? then [(h.0, e.ratio)] else []);
      assert forall j :: 0 <= j < |res| ==> ReducedIn(held, holdCost, holdHigh, feeds, rm, res[j].0) by {
        forall j | 0 <= j < |res| ensures ReducedIn(held, holdCost, holdHigh, feeds, rm, res[j].0) {
          if j < |prev| {
            assert ReducedIn(init, holdCost, holdHigh, feeds, rm, prev[j].0);
            var i :| 0 <= i < |init| && init[i].0 == prev[j].0 && ExitOf(init[i], holdCost, holdHigh, feeds, rm).ReduceExit?;
            assert held[i] == init[i];
          } else {
            assert held[|held| - 1] == h;
          }
        }
      }
      res
  }

  /** With one entry per symbol, no symbol is both sold and reduced. */
  lemma SellsAndReductionsDisjoint(held: seq<(string, Position)>, holdCost: map<string, real>,
                                   holdHigh: map<string, real>, feeds: set<string>, rm: RiskManager)
    requires DistinctKeys(held)
    ensures forall x :: x in StopSells(held, holdCost, holdHigh, feeds, rm) ==>
      (x, 0.5) !in Reductions(held, holdCost, holdHigh, feeds, rm)
  {
    var s := StopSells(held, holdCost, holdHigh, feeds, rm);
    var r := Reductions(held, holdCost, holdHigh, feeds, rm);
    forall x | x in s ensures (x, 0.5) !in r {
      var i :| 0 <= i < |held| && held[i].0 == x && ExitOf(held[i], holdCost, holdHigh, feeds, rm).StopExit?;
    }
  }

  /** The symbols among `syms` that have a feed. */
  function WithFeed(syms: seq<string>, feeds: set<string>): (r: seq<string>)
    ensures forall x :: x in r <==> x in syms && x in feeds
  {
    if |syms| == 0 then []
    else
      var init := syms[..|syms| - 1];
      var x := syms[|syms| - 1];
      assert syms == init + [x];
      WithFeed(init, feeds) + (if x in feeds then [x] else [])
  }

  /** The target value of a reduction: the account value times the ratio. */
  function ReducedValue(totalValue: real, ratio: real): real
  {
    totalValue * ratio
  }

  /** The reduction orders: each reduced symbol with a feed targets `ratio` of the account value. */
  function ReduceOrders(reds: seq<(string, real)>, feeds: set<string>, totalValue: real): (o: seq<Order>)
    ensures forall x :: x in o ==> x.TargetValue?
  {
    if |reds| == 0 then []
    else
      var init := reds[..|reds| - 1];
      var x := reds[|reds| - 1];
      ReduceOrders(init, feeds, totalValue) +
        (if x.0 in feeds then [TargetValue(x.0, ReducedValue(totalValue, x.1))] else [])
  }

  /** The sell orders, one per sold symbol with a feed. */
  function SellOrders(sells: seq<string>, feeds: set<string>): (o: seq<Order>)
    ensures |o| == |WithFeed(sells, feeds)|
    ensures forall i :: 0 <= i < |o| ==> o[i] == TargetPercent(WithFeed(sells, feeds)[i], 0.0)
  {
    var w := WithFeed(sells, feeds);
    seq(|w|, i requires 0 <= i < |w| => TargetPercent(w[i], 0.0))
  }

  /** The scan of `_check_risk_controls`: stop exits and take-profit reductions, in position order. */
  method CollectExits(held: seq<(string, Position)>, holdCost: map<string, real>, holdHigh: map<string, real>,
                      feeds: set<string>, rm: RiskManager)
    returns (sells: seq<string>, reductions: seq<(string, real)>)
    ensures sells == StopSells(held, holdCost, holdHigh, feeds, rm)
    ensures reductions == Reductions(held, holdCost, holdHigh, feeds, rm)
  {
    sells := [];
    reductions := [];
    var i := 0;
    while i < |held|
      invariant 0 <= i <= |held|
      invariant sells == StopSells(held[..i], holdCost, holdHigh, feeds, rm)
      invariant reductions == Reductions(held[..i], holdCost, holdHigh, feeds, rm)
    {
      assert held[..i + 1][..i] == held[..i];
      var e := ExitOf(held[i], holdCost, holdHigh, feeds, rm);
      if e.StopExit? {
        sells := sells + [held[i].0];
      } else if e.ReduceExit? {
        reductions := reductions + [(held[i].0, e.ratio)];
      }
      i := i + 1;
    }
    assert held[..|held|] == held;
  }

  lemma SellOrdersStep(sells: seq<string>, j: nat, feeds: set<string>)
    requires j < |sells|
    ensures sells[j] in feeds ==>
      && SellOrders(sells[..j + 1], feeds) == SellOrders(sells[..j], feeds) + [TargetPercent(sells[j], 0.0)]
      && Elements(sells[..j + 1]) * feeds == Elements(sells[..j]) * feeds + {sells[j]}
    ensures sells[j] !in feeds ==>
      && SellOrders(sells[..j + 1], feeds) == SellOrders(sells[..j], feeds)
      && Elements(sells[..j + 1]) * feeds == Elements(sells[..j]) * feeds
  {
    assert sells[..j + 1] == sells[..j] + [sells[j]];
    assert sells[..j + 1][..j] == sells[..j];
    PrefixElements(sells, j);
    if sells[j] !in feeds {
      assert WithFeed(sells[..j + 1], feeds) == WithFeed(sells[..j], feeds);
    }
  }

  /** Sells each symbol that has a feed and drops its cost and high entries. */
  method SellAll(book: StrategyBook, sells: seq<string>, feeds: set<string>) returns (orders: seq<Order>)
    requires book.Valid()
    modifies book
    ensures book.Valid()
    ensures orders == SellOrders(sells, feeds)
    ensures book.holdCost == old(book.holdCost) - Elements(sells) * feeds
    ensures book.holdHigh == old(book.holdHigh) - Elements(sells) * feeds
    ensures book.tradeHistory == old(book.tradeHistory)
  {
    orders := [];
    var j := 0;
    while j < |sells|
      invariant 0 <= j <= |sells|
      invariant book.Valid()
      invariant orders == SellOrders(sells[..j], feeds)
      invariant book.holdCost == old(book.holdCost) - Elements(sells[..j]) * feeds
      invariant book.holdHigh == old(book.holdHigh) - Elements(sells[..j]) * feeds
      invariant book.tradeHistory == old(book.tradeHistory)
    {
      SellOrdersStep(sells, j, feeds);
      ghost var gone := Elements(sells[..j]) * feeds;
      if sells[j] in feeds {
        orders := orders + [TargetPercent(sells[j], 0.0)];
        MapMinusStep(old(book.holdCost), gone, sells[j]);
        MapMinusStep(old(book.holdHigh), gone, sells[j]);
        book.Forget(sells[j]);
      }
      j := j + 1;
    }
    assert sells[..|sells|] == sells;
  }

  /** The reduction loop: each reduced symbol with a feed targets its ratio of the account value. */
  method ReduceAll(reductions: seq<(string, real)>, feeds: set<string>, totalValue: real)
    returns (orders: seq<Order>)
    ensures orders == ReduceOrders(reductions, feeds, totalValue)
  {
    orders := [];
    var k := 0;
    while k < |reductions|
      invariant 0 <= k <= |reductions|
      invariant orders == ReduceOrders(reductions[..k], feeds, totalValue)
    {
      assert reductions[..k + 1][..k] == reductions[..k];
      assert reductions[..k + 1][k] == reductions[k];
      assert ReduceOrders(reductions[..k + 1], feeds, totalValue) == ReduceOrders(reductions[..k], feeds, totalValue) +
        (if reductions[k].0 in feeds then [TargetValue(reductions[k].0, ReducedValue(totalValue, reductions[k].1))] else []);
      if reductions[k].0 in feeds {
        orders := orders + [TargetValue(reductions[k].0, ReducedValue(totalValue, reductions[k].1))];
      }
      k := k + 1;
    }
    assert reductions[..|reductions|] == reductions;
  }

  /**
   * `_check_risk_controls` with each position's symbol resolved from its
   * feed: collects stop exits and take-profit reductions in position order,
   * then sells the former (dropping their cost and high entries) and cuts
   * the latter to a fraction of the account value.
   */
  method CheckRiskControls(book: StrategyBook, rm: RiskManager, held: seq<(string, Position)>,
                           feeds: set<string>, totalValue: real)
    returns (orders: seq<Order>)
    requires book.Valid()
    modifies book
    ensures book.Valid()
    ensures var sells := StopSells(held, old(book.holdCost), old(book.holdHigh), feeds, rm);
      && orders == SellOrders(sells, feeds) +
           ReduceOrders(Reductions(held, old(book.holdCost), old(book.holdHigh), feeds, rm), feeds, totalValue)
      && book.holdCost == old(book.holdCost) - Elements(sells) * feeds
      && book.holdHigh == old(book.holdHigh) - Elements(sells) * feeds
    ensures book.tradeHistory == old(book.tradeHistory)
  {
    var sells, reductions := CollectExits(held, book.holdCost, book.holdHigh, feeds, rm);
    var sold := SellAll(book, sells, feeds);
    var reduced := ReduceAll(reductions, feeds, totalValue);
    orders := sold + reduced;
  }

  /**
   * As written, the pass looks each open position's symbol up in a
   * `data_to_symbol` attribute that the strategy never defines, so it
   * raises as soon as one position is open.
   */
  function CheckRiskControlsRaisesAsWritten(held: seq<(string, Position)>): (raises: bool)
    ensures raises <==> exists i :: 0 <= i < |held| && held[i].1.size > 0.0
  {
    if |held| == 0 then false
    else held[0].1.size > 0.0 || CheckRiskControlsRaisesAsWritten(held[1..])
  }

  /** One open position of 100 shares is enough for the written pass to raise. */
  lemma OpenPositionRaisesAsWritten()
    ensures CheckRiskControlsRaisesAsWritten([("510300", Position(100.0, 1.0))])
  {
    var held := [("510300", Position(100.0, 1.0))];
    assert held[0].1.size > 0.0;
  }
}
