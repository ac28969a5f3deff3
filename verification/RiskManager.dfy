/**
 * `core/risk_manager.py`: the regime-dependent risk state and the stop-loss,
 * trailing-stop and take-profit checks that read it.
 */
module Risk {
  import opened Wrappers
  import opened Seqs
  import opened Utils

  /** Gross exposure for each regime. */
  function PositionRatio(level: Trend): (r: real)
    ensures level == HighRisk ==> r == 0.5
    ensures level == LowRisk ==> r == 1.0
    ensures level == Neutral ==> r == 0.8
  {
    match level
    case HighRisk => 0.5
    case LowRisk => 1.0
    case Neutral => 0.8
  }

  /** A stop threshold widened by the volatility percentile: `base * (1 + q)`. */
  function WidenedStop(base: real, q: real): real
  {
    base * (1.0 + q)
  }

  /** The take-profit threshold narrowed by the volatility percentile: `ratio * (1 - q)`. */
  function NarrowedTakeProfit(ratio: real, q: real): real
  {
    ratio * (1.0 - q)
  }

  /** For a percentile in [0, 1] a stop lies in [base, 2 base] and the take-profit in [0, ratio]. */
  lemma ThresholdRanges(base: real, ratio: real, q: real)
    requires base >= 0.0 && ratio >= 0.0 && 0.0 <= q <= 1.0
    ensures base <= WidenedStop(base, q) <= 2.0 * base
    ensures 0.0 <= NarrowedTakeProfit(ratio, q) <= ratio
  {
    assert base * q >= 0.0 && base * q <= base;
    assert ratio * q >= 0.0 && ratio * q <= ratio;
  }

  /** Which exit rule fired. */
  datatype StopReason = NoStop | CostStop | TrailingStop

  /**
   * `check_stop_loss` against thresholds `stopLoss` and `trailingStop`: the
   * cost stop first, then the trailing stop when a positive high is known.  A
   * zero cost divides by zero and the handler answers "no stop".
   */
  function StopDecision(stopLoss: real, trailingStop: real, current: real, cost: real, highest: real): (r: StopReason)
    ensures cost == 0.0 ==> r == NoStop
    ensures r == CostStop <==> cost != 0.0 && (current - cost) / cost < -stopLoss
    ensures r == TrailingStop <==>
      (cost != 0.0 && !((current - cost) / cost < -stopLoss)
       && highest > 0.0 && (current - highest) / highest < -trailingStop)
  {
    if cost == 0.0 then NoStop
    else if (current - cost) / cost < -stopLoss then CostStop
    else if highest > 0.0 && (current - highest) / highest < -trailingStop then TrailingStop
    else NoStop
  }

  /**
   * In price terms: with a positive cost the cost stop fires exactly when the
   * price falls below `cost * (1 - stopLoss)`, and otherwise the trailing stop
   * fires exactly when it falls below `highest * (1 - trailingStop)`.
   */
  lemma StopDecisionPriceLevels(stopLoss: real, trailingStop: real, current: real, cost: real, highest: real)
    requires cost > 0.0
    ensures StopDecision(stopLoss, trailingStop, current, cost, highest) == CostStop
        <==> current < cost * (1.0 - stopLoss)
    ensures highest > 0.0 && current >= cost * (1.0 - stopLoss) ==>
      ((StopDecision(stopLoss, trailingStop, current, cost, highest) == TrailingStop)
       <==> current < highest * (1.0 - trailingStop))
  {
    BelowRatioIffBelowLevel(current, cost, stopLoss);
    if highest > 0.0 {
      BelowRatioIffBelowLevel(current, highest, trailingStop);
    }
  }

  lemma BelowRatioIffBelowLevel(current: real, reference: real, threshold: real)
    requires reference > 0.0
    ensures (current - reference) / reference < -threshold <==> current < reference * (1.0 - threshold)
  {
    var x := (current - reference) / reference;
    assert x * reference == current - reference;
    if x < -threshold {
      assert x * reference < -threshold * reference;
    }
    if current < reference * (1.0 - threshold) {
      assert x * reference < -threshold * reference;
    }
  }

  /** A wider stop never fires where a narrower one does not. */
  lemma StopDecisionMonotone(sl1: real, sl2: real, ts1: real, ts2: real, current: real, cost: real, highest: real)
    requires sl1 <= sl2 && ts1 <= ts2
    ensures StopDecision(sl2, ts2, current, cost, highest) != NoStop
        ==> StopDecision(sl1, ts1, current, cost, highest) != NoStop
  {
  }

  /** `check_take_profit`: reduce to half when the profit ratio strictly exceeds the threshold. */
  function TakeProfitDecision(takeProfit: real, current: real, cost: real): (r: (bool, real))
    ensures r.0 <==> cost != 0.0 && (current - cost) / cost > takeProfit
    ensures r.1 == (if r.0 then 0.5 else 1.0)
  {
    if cost == 0.0 then (false, 1.0)
    else if (current - cost) / cost > takeProfit then (true, 0.5)
    else (false, 1.0)
  }

  /** In price terms, with a positive cost: take profit exactly above `cost * (1 + takeProfit)`. */
  lemma TakeProfitPriceLevel(takeProfit: real, current: real, cost: real)
    requires cost > 0.0
    ensures TakeProfitDecision(takeProfit, current, cost).0 <==> current > cost * (1.0 + takeProfit)
  {
    var x := (current - cost) / cost;
    assert x * cost == current - cost;
    if x > takeProfit {
      assert x * cost > takeProfit * cost;
    }
    if current > cost * (1.0 + takeProfit) {
      assert x * cost > takeProfit * cost;
    }
  }

  /** The dictionary returned by `get_risk_status`. */
  datatype RiskStatus = RiskStatus(
    marketRiskLevel: Trend,
    marketVolQuantile: real,
    totalPositionRatio: real,
    dynamicStopLoss: real,
    dynamicTrailingStop: real,
    dynamicTakeProfit: real)

  /** `params.get(key, default)` over a dictionary of numeric parameters. */
  function Param(params: map<string, real>, key: string, default: real): real
  {
    if key in params then params[key] else default
  }

  class RiskManager {
    const stopLossBase: real
    const trailingStopBase: real
    const takeProfitRatio: real
    const volQuantileWindow: real

    var dynamicStopLoss: real
    var dynamicTrailingStop: real
    var dynamicTakeProfit: real
    var marketRiskLevel: Trend
    var marketVolQuantile: real
    var totalPositionRatio: real

    /**
     * The percentile stays in [0, 1] and the exposure matches the regime,
     * except for the initial full exposure under the neutral regime.
     */
    ghost predicate Valid()
      reads this
    {
      0.0 <= marketVolQuantile <= 1.0
      && (totalPositionRatio == PositionRatio(marketRiskLevel)
          || (marketRiskLevel == Neutral && totalPositionRatio == 1.0))
    }

    constructor (params: map<string, real>)
      ensures Valid()
      ensures stopLossBase == Param(params, "stop_loss_base", 0.05)
      ensures trailingStopBase == Param(params, "trailing_stop_base", 0.05)
      ensures takeProfitRatio == Param(params, "take_profit_ratio", 0.10)
      ensures volQuantileWindow == Param(params, "vol_quantile_window", 60.0)
      ensures dynamicStopLoss == stopLossBase && dynamicTrailingStop == trailingStopBase
      ensures dynamicTakeProfit == takeProfitRatio
      ensures marketRiskLevel == Neutral && marketVolQuantile == 0.5 && totalPositionRatio == 1.0
    {
      stopLossBase := Param(params, "stop_loss_base", 0.05);
      trailingStopBase := Param(params, "trailing_stop_base", 0.05);
      takeProfitRatio := Param(params, "take_profit_ratio", 0.10);
      volQuantileWindow := Param(params, "vol_quantile_window", 60.0);
      dynamicStopLoss := Param(params, "stop_loss_base", 0.05);
      dynamicTrailingStop := Param(params, "trailing_stop_base", 0.05);
      dynamicTakeProfit := Param(params, "take_profit_ratio", 0.10);
      marketRiskLevel := Neutral;
      marketVolQuantile := 0.5;
      totalPositionRatio := 1.0;
    }

    /**
     * `update_market_risk`.  `closes` is the benchmark close series after
     * NaN removal, or None when no close column or key can be extracted;
     * `returnCount`, `currentVol` and `rollingVols` describe its percentage
     * returns.  Any failure resets the regime to neutral at 0.8 exposure and
     * q = 0.5 and leaves the three dynamic thresholds as they were.
     */
    method UpdateMarketRisk(closes: Option<seq<real>>, returnCount: nat, currentVol: real, rollingVols: seq<real>)
      requires Valid()
      modifies this
      ensures Valid()
      ensures var ok := closes.Some? && |closes.value| >= 20 && returnCount >= 20;
        if ok then
          var q := VolQuantile(returnCount, currentVol, rollingVols);
          && marketVolQuantile == q
          && dynamicStopLoss == WidenedStop(stopLossBase, q)
          && dynamicTrailingStop == WidenedStop(trailingStopBase, q)
          && dynamicTakeProfit == NarrowedTakeProfit(takeProfitRatio, q)
          && marketRiskLevel == JudgeMarketTrend(closes.value, q)
          && totalPositionRatio == PositionRatio(marketRiskLevel)
        else
          && marketRiskLevel == Neutral && totalPositionRatio == 0.8 && marketVolQuantile == 0.5
          && dynamicStopLoss == old(dynamicStopLoss)
          && dynamicTrailingStop == old(dynamicTrailingStop)
          && dynamicTakeProfit == old(dynamicTakeProfit)
    {
      if closes.None? || |closes.value| < 20 || returnCount < 20 {
        marketRiskLevel := Neutral;
        totalPositionRatio := 0.8;
        marketVolQuantile := 0.5;
        return;
      }
      var q := VolQuantile(returnCount, currentVol, rollingVols);
      marketVolQuantile := q;
      dynamicStopLoss := WidenedStop(stopLossBase, q);
      dynamicTrailingStop := WidenedStop(trailingStopBase, q);
      dynamicTakeProfit := NarrowedTakeProfit(takeProfitRatio, q);
      var level := JudgeMarketTrend(closes.value, q);
      marketRiskLevel := level;
      if level == HighRisk {
        totalPositionRatio := 0.5;
      } else if level == LowRisk {
        totalPositionRatio := 1.0;
      } else {
        totalPositionRatio := 0.8;
      }
    }

    /** `check_stop_loss` with the current dynamic thresholds. */
    function CheckStopLoss(current: real, cost: real, highest: real): (r: (bool, StopReason))
      reads this
      ensures r.0 <==> r.1 != NoStop
      ensures r.1 == StopDecision(dynamicStopLoss, dynamicTrailingStop, current, cost, highest)
    {
      var reason := StopDecision(dynamicStopLoss, dynamicTrailingStop, current, cost, highest);
      (reason != NoStop, reason)
    }

    /** `check_take_profit` with the current dynamic threshold. */
    function CheckTakeProfit(current: real, cost: real): (r: (bool, real))
      reads this
      ensures r == TakeProfitDecision(dynamicTakeProfit, current, cost)
    {
      TakeProfitDecision(dynamicTakeProfit, current, cost)
    }

    /** `get_risk_status`: a snapshot of the six mutable fields. */
    function GetRiskStatus(): (s: RiskStatus)
      reads this
      ensures s.marketRiskLevel == marketRiskLevel && s.marketVolQuantile == marketVolQuantile
      ensures s.totalPositionRatio == totalPositionRatio
      ensures s.dynamicStopLoss == dynamicStopLoss && s.dynamicTrailingStop == dynamicTrailingStop
      ensures s.dynamicTakeProfit == dynamicTakeProfit
    {
      RiskStatus(marketRiskLevel, marketVolQuantile, totalPositionRatio,
                 dynamicStopLoss, dynamicTrailingStop, dynamicTakeProfit)
    }
  }
}
