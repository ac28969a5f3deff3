/**
 * The JoinQuant script `etf_rotation.py`: the platform's global object `g`
 * as a class whose fields the three scheduled jobs rewrite.  The pre-open
 * job recomputes the regime, the dynamic thresholds and the score table;
 * the open job gates on drift, runs the exit checks, picks targets by
 * regime, sells what is not targeted and buys in 100-share lots; the
 * after-close job raises the recorded highs.  Prices, positions, account
 * value and the outcome of every data request are inputs; the factor
 * kernels' composite arrives already computed.
 */
module JqEtfRotation {
  import opened Wrappers
  import opened Seqs
  import opened Utils
  import opened EtfSelection
  import Risk
  import Factors
  import BtEtfRotation

  // ---------------------------------------------------------------------------
  // The parameters `initialize` stores in `g`
  // ---------------------------------------------------------------------------

  const EtfList: seq<string> := [
    "159985.XSHE", "518880.XSHG", "515220.XSHG", "516150.XSHG", "159870.XSHE", "512400.XSHG",
    "513100.XSHG", "513500.XSHG", "513090.XSHG", "513330.XSHG",
    "512050.XSHG", "159949.XSHE", "512100.XSHG", "588000.XSHG", "588100.XSHG",
    "159819.XSHE", "512480.XSHG", "510150.XSHG", "562500.XSHG",
    "515790.XSHG", "515880.XSHG", "159869.XSHE", "159883.XSHE"]

  const EtfStyle: map<string, string> := map[
    "159985.XSHE" := "commodity", "518880.XSHG" := "commodity", "515220.XSHG" := "commodity",
    "516150.XSHG" := "commodity", "159870.XSHE" := "commodity", "512400.XSHG" := "commodity",
    "513100.XSHG" := "overseas", "513500.XSHG" := "overseas",
    "513330.XSHG" := "overseas", "513090.XSHG" := "overseas",
    "512050.XSHG" := "a_share", "159949.XSHE" := "a_share",
    "512100.XSHG" := "a_share", "588000.XSHG" := "a_share",
    "588100.XSHG" := "tech", "159819.XSHE" := "tech", "512480.XSHG" := "tech", "510150.XSHG" := "tech",
    "562500.XSHG" := "tech", "515790.XSHG" := "tech", "515880.XSHG" := "tech",
    "159869.XSHE" := "tech", "159883.XSHE" := "tech"]

  /** Gold, Nasdaq and soybean meal. */
  const DefensiveEtfs: seq<string> := ["518880.XSHG", "513100.XSHG", "159985.XSHE"]

  const MaxHoldings: int := 3
  const ScoreThreshold: real := 0.0
  const MinPositiveCount: nat := 7
  const StopLossBase: real := 0.05
  const TrailingStopBase: real := 0.05
  const TakeProfitRatio: real := 0.10
  const RebalanceWeekday: int := 0
  const RebalanceThreshold: real := 0.05
  const DropThreshold: real := 0.05
  const VolumeShortWindow: nat := 5
  const VolumeLongWindow: nat := 20
  const VolumeFilterThreshold: real := 2.0

  /** The universe lists each ETF once. */
  lemma EtfListDistinct()
    ensures Distinct(EtfList)
  {
  }

  /** Every ETF of the universe has a style, so the style lookup in `market_open` never misses. */
  lemma EtfListStyled()
    ensures forall s :: s in EtfList ==> s in EtfStyle
  {
  }

  function Max(a: real, b: real): real
  {
    if a >= b then a else b
  }

  // ---------------------------------------------------------------------------
  // Regime
  // ---------------------------------------------------------------------------

  /**
   * What the index request delivers to `calculate_market_vol_quantile`: the
   * number of closes fetched, the current volatility and the rolling
   * volatilities that survive `dropna`.
   */
  datatype VolInput = VolInput(closeCount: nat, currentVol: real, rollingVols: seq<real>)

  /**
   * The volatility percentile; `None` stands for a failed request.  Below 20
   * closes (not returns, unlike the library copy) or with no rolling value it
   * is 0.5.
   */
  function MarketVolQuantile(index: Option<VolInput>): (q: real)
    ensures 0.0 <= q <= 1.0
    ensures index.None? || index.value.closeCount < 20 || |index.value.rollingVols| == 0 ==> q == 0.5
    ensures index.Some? && index.value.closeCount >= 20 && |index.value.rollingVols| > 0 ==>
      q * (|index.value.rollingVols| as real) == CountAtMost(index.value.rollingVols, index.value.currentVol) as real
  {
    match index
    case None => 0.5
    case Some(v) => VolQuantile(v.closeCount, v.currentVol, v.rollingVols)
  }

  /** `judge_market_trend` over the fetched index closes; `None` stands for a failed request. */
  function MarketTrend(indexCloses: Option<seq<real>>, q: real): (t: Trend)
    ensures indexCloses.None? ==> t == Neutral
    ensures t == HighRisk ==> q > 0.8
    ensures t == LowRisk ==> q < 0.2
  {
    match indexCloses
    case None => Neutral
    case Some(closes) => JudgeMarketTrend(closes, q)
  }

  /** The exposure `market_open` sets: 0.5 in the defensive case, 1.0 in a low-risk and 0.8 in a neutral market. */
  function Exposure(positiveCount: nat, level: Trend): (r: real)
    ensures positiveCount < MinPositiveCount || level == HighRisk ==> r == 0.5
    ensures positiveCount >= MinPositiveCount && level == LowRisk ==> r == 1.0
    ensures positiveCount >= MinPositiveCount && level == Neutral ==> r == 0.8
  {
    if positiveCount < MinPositiveCount then 0.5 else Risk.PositionRatio(level)
  }

  // ---------------------------------------------------------------------------
  // Scores
  // ---------------------------------------------------------------------------

  /**
   * One ETF's fetched window: closes, volumes, and the composite the factor
   * kernels produce (`None` when they raise and the ETF is skipped).
   */
  datatype EtfData = EtfData(closes: seq<real>, volumes: seq<real>, composite: Option<real>)

  /**
   * Volumes reach the ratio as a pandas series here, so the rolling means are
   * taken and the volume filter can fire.
   */
  predicate VolumeFiltered(d: EtfData)
  {
    VolumeRatio(d.volumes, VolumeShortWindow, VolumeLongWindow, true) > VolumeFilterThreshold
  }

  predicate DropFiltered(d: EtfData)
  {
    |d.closes| >= 4 && Factors.DropFilter(d.closes, DropThreshold)
  }

  /** The entry the pre-open job records for one fetched ETF, if any. */
  function ScoreOf(d: EtfData): Option<real>
  {
    if VolumeFiltered(d) || DropFiltered(d) then Some(0.0) else d.composite
  }

  /** The score table after the pre-open job, in universe order. */
  function ScoreTable(universe: seq<string>, fetched: map<string, EtfData>): (t: seq<(string, real)>)
    ensures |t| <= |universe|
  {
    if |universe| == 0 then []
    else
      var t := ScoreTable(universe[..|universe| - 1], fetched);
      var s := universe[|universe| - 1];
      if s in fetched && ScoreOf(fetched[s]).Some? then t + [(s, ScoreOf(fetched[s]).value)] else t
  }

  /** Number of entries with a positive composite. */
  function CountPositive(t: seq<(string, real)>): (n: nat)
    ensures n <= |t|
  {
    if |t| == 0 then 0
    else CountPositive(t[..|t| - 1]) + (if t[|t| - 1].1 > 0.0 then 1 else 0)
  }

  /** The per-ETF branch of the pre-open job: a volume or drop filter records 0, otherwise the composite. */
  method ScoreEntry(d: EtfData) returns (entry: Option<real>)
    ensures entry == ScoreOf(d)
  {
    if VolumeRatio(d.volumes, VolumeShortWindow, VolumeLongWindow, true) > VolumeFilterThreshold {
      entry := Some(0.0);
    } else if |d.closes| >= 4 && Factors.DropFilter(d.closes, DropThreshold) {
      entry := Some(0.0);
    } else {
      entry := d.composite;
    }
  }

  lemma ScoreTableStep(universe: seq<string>, i: nat, fetched: map<string, EtfData>)
    requires i < |universe|
    ensures universe[i] !in fetched || ScoreOf(fetched[universe[i]]).None? ==>
      ScoreTable(universe[..i + 1], fetched) == ScoreTable(universe[..i], fetched)
    ensures universe[i] in fetched && ScoreOf(fetched[universe[i]]).Some? ==>
      ScoreTable(universe[..i + 1], fetched) ==
        ScoreTable(universe[..i], fetched) + [(universe[i], ScoreOf(fetched[universe[i]]).value)]
  {
    assert universe[..i + 1][..i] == universe[..i];
  }

  lemma CountPositiveAppend(t: seq<(string, real)>, e: (string, real))
    ensures CountPositive(t + [e]) == CountPositive(t) + (if e.1 > 0.0 then 1 else 0)
  {
    assert (t + [e])[..|t|] == t;
  }

  /** Every entry of the table is a fetched universe member with the entry `ScoreOf` gives it. */
  lemma {:induction false} ScoreTableSound(universe: seq<string>, fetched: map<string, EtfData>, i: nat)
    requires i < |ScoreTable(universe, fetched)|
    ensures ScoreTable(universe, fetched)[i].0 in universe
    ensures ScoreTable(universe, fetched)[i].0 in fetched
    ensures ScoreOf(fetched[ScoreTable(universe, fetched)[i].0]) == Some(ScoreTable(universe, fetched)[i].1)
    decreases |universe|
  {
    var init := universe[..|universe| - 1];
    var t0 := ScoreTable(init, fetched);
    if i < |t0| {
      ScoreTableSound(init, fetched, i);
      assert ScoreTable(universe, fetched)[i] == t0[i];
    }
  }

  /** Every fetched universe member that was filtered or scored has an entry. */
  lemma {:induction false} ScoreTableComplete(universe: seq<string>, fetched: map<string, EtfData>, s: string)
    requires s in universe && s in fetched && ScoreOf(fetched[s]).Some?
    ensures HasKey(ScoreTable(universe, fetched), s)
    decreases |universe|
  {
    var init := universe[..|universe| - 1];
    var t0 := ScoreTable(init, fetched);
    var t := ScoreTable(universe, fetched);
    if s == universe[|universe| - 1] {
      assert t[|t| - 1].0 == s;
    } else {
      assert s in init;
      ScoreTableComplete(init, fetched, s);
      var i :| 0 <= i < |t0| && t0[i].0 == s;
      assert t[i].0 == s;
    }
  }

  /** Over a universe without repeats the table is a dictionary. */
  lemma {:induction false} ScoreTableDistinct(universe: seq<string>, fetched: map<string, EtfData>)
    requires Distinct(universe)
    ensures DistinctKeys(ScoreTable(universe, fetched))
    decreases |universe|
  {
    if |universe| > 0 {
      var init := universe[..|universe| - 1];
      var s := universe[|universe| - 1];
      var t0 := ScoreTable(init, fetched);
      ScoreTableDistinct(init, fetched);
      forall i | 0 <= i < |t0| ensures t0[i].0 != s {
        ScoreTableSound(init, fetched, i);
      }
    }
  }

  /** A filtered ETF is recorded with composite 0 and so never counts as positive. */
  lemma FilteredScoresZero(d: EtfData)
    requires VolumeFiltered(d) || DropFiltered(d)
    ensures ScoreOf(d) == Some(0.0)
  {
  }

  // ---------------------------------------------------------------------------
  // Holdings and orders
  // ---------------------------------------------------------------------------

  /** A position as `context.portfolio.positions` reports it: market value and share count. */
  datatype Holding = Holding(value: real, amount: nat)

  /** `order_target_value(etf, value)` and `order(etf, amount)`. */
  datatype JqOrder = TargetValue(symbol: string, value: real) | Shares(symbol: string, amount: int)

  predicate PositiveCosts(cost: map<string, real>)
  {
    forall s :: s in cost ==> cost[s] > 0.0
  }

  /** The after-close job's new highs: first sight records the price, later sights keep the maximum. */
  function RaisedHighs(high: map<string, real>, held: seq<string>, prices: map<string, real>): map<string, real>
  {
    if |held| == 0 then high
    else
      var m := RaisedHighs(high, held[..|held| - 1], prices);
      var s := held[|held| - 1];
      if s !in prices then m
      else if s !in m then m[s := prices[s]]
      else m[s := Max(m[s], prices[s])]
  }

  /**
   * Whatever the order of the positions, a priced holding ends with the larger
   * of its old high and its price (or the price on first sight), and nothing
   * else changes; so no high ever decreases.
   */
  lemma {:induction false} RaisedHighsResult(high: map<string, real>, held: seq<string>, prices: map<string, real>)
    ensures var r := RaisedHighs(high, held, prices);
      && (forall s :: s in r <==> s in high || (s in held && s in prices))
      && (forall s :: s in r ==>
            r[s] == (if s in held && s in prices then (if s in high then Max(high[s], prices[s]) else prices[s])
                     else high[s]))
    decreases |held|
  {
    if |held| > 0 {
      RaisedHighsResult(high, held[..|held| - 1], prices);
      assert forall s :: s in held <==> s in held[..|held| - 1] || s == held[|held| - 1];
    }
  }

  /** Corollary: the after-close job never lowers a recorded high. */
  lemma RaisedHighsMonotone(high: map<string, real>, held: seq<string>, prices: map<string, real>)
    ensures var r := RaisedHighs(high, held, prices);
      forall s :: s in high ==> s in r && r[s] >= high[s]
  {
    RaisedHighsResult(high, held, prices);
  }

  // ---------------------------------------------------------------------------
  // The rebalance gate
  // ---------------------------------------------------------------------------

  /** What `market_open` did. */
  datatype Outcome = NoScores | DivisionByZero | NoDrift | Cleared | Traded

  /** The top-N target weights of the gate, as in the backtrader copy's `_get_target_weights`. */
  function GateTargets(scores: seq<(string, real)>): (w: seq<(string, real)>)
    requires DistinctKeys(scores)
    ensures DistinctKeys(w) && |w| <= MaxHoldings
    ensures |w| > 0 ==> Sum(Values(w)) == 1.0
  {
    BtEtfRotation.TargetWeights(scores, ScoreThreshold, MaxHoldings)
  }

  /** Each position's share of the account value. */
  function CurrentWeights(positions: seq<(string, Holding)>, totalValue: real): (w: seq<(string, real)>)
    requires totalValue != 0.0
    ensures |w| == |positions|
    ensures forall i :: 0 <= i < |w| ==> w[i] == (positions[i].0, positions[i].1.value / totalValue)
  {
    seq(|positions|, i requires 0 <= i < |positions| => (positions[i].0, positions[i].1.value / totalValue))
  }

  /** Some position's weight lies more than the threshold away from its target (0 for an untargeted one). */
  predicate Drifting(positions: seq<(string, Holding)>, target: seq<(string, real)>, totalValue: real)
    requires totalValue != 0.0
  {
    exists i :: 0 <= i < |positions| &&
      Abs(positions[i].1.value / totalValue - BtEtfRotation.WeightOr0(target, positions[i].0)) > RebalanceThreshold
  }

  lemma DriftingWeights(positions: seq<(string, Holding)>, target: seq<(string, real)>, totalValue: real)
    requires totalValue != 0.0
    ensures BtEtfRotation.AnyDrift(CurrentWeights(positions, totalValue), target, RebalanceThreshold)
      <==> Drifting(positions, target, totalValue)
  {
    var w := CurrentWeights(positions, totalValue);
    if BtEtfRotation.AnyDrift(w, target, RebalanceThreshold) {
      var i :| 0 <= i < |w| && Abs(w[i].1 - BtEtfRotation.WeightOr0(target, w[i].0)) > RebalanceThreshold;
      assert w[i] == (positions[i].0, positions[i].1.value / totalValue);
    }
    if Drifting(positions, target, totalValue) {
      var i :| 0 <= i < |positions| &&
        Abs(positions[i].1.value / totalValue - BtEtfRotation.WeightOr0(target, positions[i].0)) > RebalanceThreshold;
      assert w[i] == (positions[i].0, positions[i].1.value / totalValue);
    }
  }

  /**
   * The drift test of the gate: `None` when a position's weight divides by a
   * zero account value, otherwise whether some position drifts from the
   * top-N target weights.
   */
  function DriftCheck(scores: seq<(string, real)>, positions: seq<(string, Holding)>, totalValue: real): (r: Option<bool>)
    requires DistinctKeys(scores)
    ensures r.None? <==> |positions| > 0 && totalValue == 0.0
    ensures r == Some(true) <==> totalValue != 0.0 && Drifting(positions, GateTargets(scores), totalValue)
  {
    if |positions| == 0 then Some(false)
    else if totalValue == 0.0 then None
    else
      DriftingWeights(positions, GateTargets(scores), totalValue);
      Some(BtEtfRotation.AnyDrift(CurrentWeights(positions, totalValue), GateTargets(scores), RebalanceThreshold))
  }

  /**
   * The gate of `market_open`: no scores stop the job; off the rebalance
   * weekday a zero account value with open positions raises and an
   * undrifted book stops it; otherwise (`None`) the job trades.
   */
  function Gate(scores: seq<(string, real)>, weekday: int, positions: seq<(string, Holding)>, totalValue: real)
    : (r: Option<Outcome>)
    requires DistinctKeys(scores)
    ensures r.Some? ==> r.value in {NoScores, DivisionByZero, NoDrift}
    ensures r == Some(NoScores) <==> |scores| == 0
    ensures r == Some(DivisionByZero) <==>
      |scores| > 0 && weekday != RebalanceWeekday && DriftCheck(scores, positions, totalValue).None?
    ensures r == Some(NoDrift) <==>
      |scores| > 0 && weekday != RebalanceWeekday && DriftCheck(scores, positions, totalValue) == Some(false)
  {
    if |scores| == 0 then Some(NoScores)
    else if weekday == RebalanceWeekday then None
    else
      match DriftCheck(scores, positions, totalValue)
      case None => Some(DivisionByZero)
      case Some(drifting) => if drifting then None else Some(NoDrift)
  }

  // ---------------------------------------------------------------------------
  // The exit checks
  // ---------------------------------------------------------------------------

  /** `g.hold_high` for a symbol, 0 when none is recorded (which disables the trailing stop). */
  function RecordedHigh(high: map<string, real>, s: string): real
  {
    if s in high then high[s] else 0.0
  }

  datatype Exit = Keep | Stop(reason: Risk.StopReason) | TakeProfit(targetValue: real, price: real)

  /**
   * One position's exit check: only a symbol with a recorded cost and a
   * price is examined; the cost stop is tested first, then the trailing stop
   * against a positive recorded high, then the take-profit, which targets
   * half the position's value at the current price.
   */
  function ExitOf(s: string, h: Holding, prices: map<string, real>, cost: map<string, real>, high: map<string, real>,
                  stopLoss: real, trailingStop: real, takeProfit: real): (e: Exit)
    requires PositiveCosts(cost)
    ensures s !in cost || s !in prices ==> e == Keep
    ensures e.Stop? ==> e.reason != Risk.NoStop
    ensures e == Stop(Risk.CostStop) <==>
      s in cost && s in prices && (prices[s] - cost[s]) / cost[s] < -stopLoss
    ensures e == Stop(Risk.TrailingStop) <==>
      (s in cost && s in prices && !((prices[s] - cost[s]) / cost[s] < -stopLoss)
       && s in high && high[s] > 0.0 && (prices[s] - high[s]) / high[s] < -trailingStop)
    ensures e.TakeProfit? ==>
      && e.targetValue == h.value / 2.0 && e.price == prices[s]
      && (prices[s] - cost[s]) / cost[s] > takeProfit
    ensures e == Keep && s in cost && s in prices ==> !((prices[s] - cost[s]) / cost[s] > takeProfit)
  {
    if s !in cost || s !in prices then Keep
    else
      var reason := Risk.StopDecision(stopLoss, trailingStop, prices[s], cost[s], RecordedHigh(high, s));
      if reason != Risk.NoStop then Stop(reason)
      else if Risk.TakeProfitDecision(takeProfit, prices[s], cost[s]).0 then TakeProfit(h.value / 2.0, prices[s])
      else Keep
  }

  /** The scan's results: stopped symbols, take-profit orders and the high table as the scan leaves it. */
  datatype ExitPass = ExitPass(sells: seq<string>, orders: seq<JqOrder>, high: map<string, real>)

  /** The exit scan over the positions in order; each check sees the highs the earlier ones left. */
  function Exits(positions: seq<(string, Holding)>, prices: map<string, real>, cost: map<string, real>,
                 high: map<string, real>, stopLoss: real, trailingStop: real, takeProfit: real): ExitPass
    requires PositiveCosts(cost)
  {
    if |positions| == 0 then ExitPass([], [], high)
    else
      var p := Exits(positions[..|positions| - 1], prices, cost, high, stopLoss, trailingStop, takeProfit);
      var s := positions[|positions| - 1].0;
      match ExitOf(s, positions[|positions| - 1].1, prices, cost, p.high, stopLoss, trailingStop, takeProfit)
      case Keep => p
      case Stop(reason) =>
        ExitPass(p.sells + [s], p.orders, if reason == Risk.TrailingStop then p.high - {s} else p.high)
      case TakeProfit(v, price) => ExitPass(p.sells, p.orders + [TargetValue(s, v)], p.high[s := price])
  }

  /**
   * Only symbols with a recorded cost and a price are stopped, the scan
   * places no order other than a take-profit target, and the highs of
   * symbols outside the positions are left as they were.
   */
  lemma {:induction false} ExitsOutcome(positions: seq<(string, Holding)>, prices: map<string, real>,
                                        cost: map<string, real>, high: map<string, real>,
                                        stopLoss: real, trailingStop: real, takeProfit: real)
    requires PositiveCosts(cost)
    ensures forall x :: x in Exits(positions, prices, cost, high, stopLoss, trailingStop, takeProfit).sells ==>
      x in cost && x in prices && x in Keys(positions)
    ensures forall o :: o in Exits(positions, prices, cost, high, stopLoss, trailingStop, takeProfit).orders ==>
      o.TargetValue? && o.symbol in Keys(positions)
    ensures forall k :: k !in Keys(positions) ==>
      var r := Exits(positions, prices, cost, high, stopLoss, trailingStop, takeProfit).high;
      (k in r <==> k in high) && (k in high ==> r[k] == high[k])
    decreases |positions|
  {
    if |positions| > 0 {
      var init := positions[..|positions| - 1];
      ExitsOutcome(init, prices, cost, high, stopLoss, trailingStop, takeProfit);
      assert forall k :: k in Keys(init) ==> k in Keys(positions);
    }
  }

  /** Take-profit is reached only when neither stop fired: a stopped symbol gets no take-profit order. */
  lemma StopPrecedesTakeProfit(s: string, h: Holding, prices: map<string, real>, cost: map<string, real>,
                               high: map<string, real>, stopLoss: real, trailingStop: real, takeProfit: real)
    requires PositiveCosts(cost)
    requires s in cost && s in prices && (prices[s] - cost[s]) / cost[s] < -stopLoss
    ensures ExitOf(s, h, prices, cost, high, stopLoss, trailingStop, takeProfit) == Stop(Risk.CostStop)
  {
  }

  // ---------------------------------------------------------------------------
  // Targets and buys
  // ---------------------------------------------------------------------------

  /** The held symbols outside the targets, in position order. */
  function Untargeted(positions: seq<(string, Holding)>, targets: seq<string>): (u: seq<string>)
    ensures forall x :: x in u <==> x in Keys(positions) && x !in targets
  {
    if |positions| == 0 then []
    else
      var init := positions[..|positions| - 1];
      var s := positions[|positions| - 1].0;
      assert Keys(positions) == Keys(init) + [s];
      Untargeted(init, targets) + (if s !in targets then [s] else [])
  }

  /** `int(target_value / price // 100) * 100`: whole lots of 100 shares. */
  function BuyAmount(targetValue: real, price: real): (amount: int)
    requires price > 0.0
    ensures amount % 100 == 0
    ensures (amount as real) * price <= targetValue < ((amount + 100) as real) * price
  {
    var x := targetValue / price / 100.0;
    var f := x.Floor;
    assert targetValue == x * (100.0 * price);
    FloorLots(targetValue, 100.0 * price, x, f as real);
    assert ((f * 100) as real) * price == (f as real) * (100.0 * price);
    assert ((f * 100 + 100) as real) * price == (f as real + 1.0) * (100.0 * price);
    f * 100
  }

  /** Whole lots below a value: `f` lots cost at most the value, `f + 1` lots more than it. */
  lemma FloorLots(worth: real, lot: real, x: real, g: real)
    requires lot > 0.0 && worth == x * lot && g <= x < g + 1.0
    ensures g * lot <= worth < (g + 1.0) * lot
  {
    var below := (x - g) * lot;
    assert below >= 0.0;
    assert below == worth - g * lot;
    var gap := g + 1.0 - x;
    assert gap > 0.0;
    var above := gap * lot;
    assert above > 0.0;
    assert above == (g + 1.0) * lot - worth;
  }

  /** The weighted average of the old cost over the held shares and the price over the bought ones. */
  function AverageCost(cost: real, held: nat, price: real, amount: int): (c: real)
    requires amount > 0
    ensures cost <= price ==> cost <= c <= price
    ensures price <= cost ==> price <= c <= cost
  {
    var n := (held + amount) as real;
    var c := (cost * (held as real) + price * (amount as real)) / n;
    assert c * n == cost * (held as real) + price * (amount as real);
    c
  }

  /** The cost recorded after buying `amount` shares of a symbol at `price`. */
  function NewCost(positions: seq<(string, Holding)>, s: string, price: real, amount: int, cost: map<string, real>): (c: real)
    requires amount > 0
    ensures price > 0.0 && PositiveCosts(cost) ==> c > 0.0
    ensures !HasKey(positions, s) ==> c == price
  {
    match Get(positions, s)
    case Some(h) => AverageCost(if s in cost then cost[s] else price, h.amount, price, amount)
    case None => price
  }

  datatype BuyPass = BuyPass(orders: seq<JqOrder>, cost: map<string, real>, high: map<string, real>)

  /**
   * The buy loop over the targets: the i-th target with a weight and a
   * positive price buys whole lots worth at most `budget * weights[i]`,
   * records the new average cost and resets its high to the price.
   */
  function Buys(targets: seq<string>, weights: seq<real>, positions: seq<(string, Holding)>, prices: map<string, real>,
                budget: real, cost: map<string, real>, high: map<string, real>): BuyPass
  {
    if |targets| == 0 then BuyPass([], cost, high)
    else
      var k := |targets| - 1;
      BuyOne(Buys(targets[..k], weights, positions, prices, budget, cost, high), targets[k], k, weights, positions,
             prices, budget)
  }

  /** One step of the buy loop: the `i`-th target `s`, given what the earlier steps left. */
  function BuyOne(p: BuyPass, s: string, i: nat, weights: seq<real>, positions: seq<(string, Holding)>,
                  prices: map<string, real>, budget: real): BuyPass
  {
    if i >= |weights| || s !in prices || prices[s] <= 0.0 then p
    else
      var amount := BuyAmount(budget * weights[i], prices[s]);
      if amount <= 0 then p
      else BuyPass(p.orders + [Shares(s, amount)], p.cost[s := NewCost(positions, s, prices[s], amount, p.cost)],
                   p.high[s := prices[s]])
  }

  /**
   * Every buy order is a positive whole number of lots, recorded costs stay
   * positive, and only targets gain cost or high entries.
   */
  lemma {:induction false} BuysOutcome(targets: seq<string>, weights: seq<real>, positions: seq<(string, Holding)>,
                                       prices: map<string, real>, budget: real,
                                       cost: map<string, real>, high: map<string, real>)
    requires PositiveCosts(cost)
    ensures PositiveCosts(Buys(targets, weights, positions, prices, budget, cost, high).cost)
    ensures forall o :: o in Buys(targets, weights, positions, prices, budget, cost, high).orders ==>
      o.Shares? && o.amount > 0 && o.amount % 100 == 0
    ensures forall k :: k in Buys(targets, weights, positions, prices, budget, cost, high).cost ==>
      k in cost || k in targets
    ensures forall k :: k in Buys(targets, weights, positions, prices, budget, cost, high).high ==>
      k in high || k in targets
    decreases |targets|
  {
    if |targets| > 0 {
      var k := |targets| - 1;
      BuysOutcome(targets[..k], weights, positions, prices, budget, cost, high);
      var p := Buys(targets[..k], weights, positions, prices, budget, cost, high);
      var s := targets[k];
      if k < |weights| && s in prices && prices[s] > 0.0 {
        var amount := BuyAmount(budget * weights[k], prices[s]);
        if amount > 0 {
          match Get(positions, s)
          case Some(h) =>
            var c := if s in p.cost then p.cost[s] else prices[s];
            assert c > 0.0;
            var a := AverageCost(c, h.amount, prices[s], amount);
          case None =>
        }
      }
    }
  }

  lemma DefensiveEtfsDistinct()
    ensures Distinct(DefensiveEtfs)
  {
  }

  /** A ranked symbol is a key of the score table. */
  lemma RankedSymbolInScores(scores: seq<(string, real)>, t: string)
    requires DistinctKeys(scores)
    requires t in Keys(Ranked(scores, ScoreThreshold))
    ensures HasKey(scores, t)
  {
    var ranked := Ranked(scores, ScoreThreshold);
    RankedEntries(scores, ScoreThreshold);
    var i :| 0 <= i < |ranked| && Keys(ranked)[i] == t;
    assert ranked[i] in scores;
    var j :| 0 <= j < |scores| && scores[j] == ranked[i];
    assert scores[j].0 == t;
  }

  /**
   * The low-risk and neutral branches: no qualifying ETF gives no targets
   * (and the caller clears the book); otherwise the two-pass
   * style-diversified selection over the ranking, weighted by score, or
   * equally when the previous trading day is unknown.
   */
  method DiversifiedTargets(scores: seq<(string, real)>, scoreWeights: bool)
    returns (targets: seq<string>, weights: seq<real>)
    requires DistinctKeys(scores)
    ensures targets == Selection(Keys(Ranked(scores, ScoreThreshold)), EtfStyle, MaxHoldings)
    ensures targets == [] <==> |Ranked(scores, ScoreThreshold)| == 0
    ensures Distinct(targets)
    ensures forall t :: t in targets ==> t in Keys(Ranked(scores, ScoreThreshold)) && HasKey(scores, t)
    ensures |targets| == if |Ranked(scores, ScoreThreshold)| < MaxHoldings
                         then |Ranked(scores, ScoreThreshold)| else MaxHoldings
    ensures |targets| > 0 ==> targets[0] == Ranked(scores, ScoreThreshold)[0].0
    ensures |targets| > 1 ==> targets[1] == Ranked(scores, ScoreThreshold)[1].0
    ensures scoreWeights ==> weights == ScoreBasedWeighting(ScoresOf(scores, targets))
    ensures !scoreWeights ==> weights == EqualWeights(|targets|)
    ensures |weights| == |targets| && forall i :: 0 <= i < |weights| ==> weights[i] >= 0.0
    ensures |targets| > 0 ==> Sum(weights) == 1.0
  {
    var ranked := Ranked(scores, ScoreThreshold);
    if |ranked| == 0 {
      targets := [];
      weights := [];
      return;
    }
    RankedEntries(scores, ScoreThreshold);
    var symbols := Keys(ranked);
    targets := SelectDiversified(symbols, EtfStyle, MaxHoldings);
    forall t | t in targets ensures HasKey(scores, t) {
      RankedSymbolInScores(scores, t);
    }
    weights := WeighTargets(scores, targets, scoreWeights);
  }

  /** Score-proportional weights, or equal ones when the previous trading day is unknown. */
  method WeighTargets(scores: seq<(string, real)>, targets: seq<string>, scoreWeights: bool)
    returns (weights: seq<real>)
    requires forall t :: t in targets ==> HasKey(scores, t)
    ensures scoreWeights ==> weights == ScoreBasedWeighting(ScoresOf(scores, targets))
    ensures !scoreWeights ==> weights == EqualWeights(|targets|)
    ensures |weights| == |targets| && forall i :: 0 <= i < |weights| ==> weights[i] >= 0.0
    ensures |targets| > 0 ==> Sum(weights) == 1.0
  {
    if scoreWeights {
      weights := ScoreBasedWeighting(ScoresOf(scores, targets));
    } else {
      weights := EqualWeights(|targets|);
    }
  }

  /** The regime's choice: whether it is defensive, the target list and its weights. */
  datatype Plan = Plan(defensive: bool, targets: seq<string>, weights: seq<real>)

  /**
   * Target selection by regime: too few positive scores or a high-risk
   * market choose the defensive basket at equal weights; otherwise the
   * two-pass style-diversified selection over the ranking, weighted by
   * score, or equally when the previous trading day is unknown.
   */
  function PlanOf(scores: seq<(string, real)>, positiveCount: nat, level: Trend, scoreWeights: bool): Plan
    requires DistinctKeys(scores)
  {
    if positiveCount < MinPositiveCount || level == HighRisk then
      Plan(true, DefensiveEtfs, EqualWeights(|DefensiveEtfs|))
    else
      var targets := Selection(Keys(Ranked(scores, ScoreThreshold)), EtfStyle, MaxHoldings);
      SelectedTargets(scores, ScoreThreshold, EtfStyle, MaxHoldings, targets);
      Plan(false, targets, if scoreWeights then ScoreBasedWeighting(ScoresOf(scores, targets)) else EqualWeights(|targets|))
  }

  /**
   * `PlanOf`, as the open job computes it.  Either way the targets are
   * distinct and their weights non-negative, summing to 1 over a non-empty
   * list; outside the defensive regime the list is empty exactly when no
   * ETF qualifies.
   */
  method PlanTargets(scores: seq<(string, real)>, positiveCount: nat, level: Trend, scoreWeights: bool)
    returns (defensive: bool, targets: seq<string>, weights: seq<real>)
    requires DistinctKeys(scores)
    ensures Plan(defensive, targets, weights) == PlanOf(scores, positiveCount, level, scoreWeights)
    ensures defensive <==> positiveCount < MinPositiveCount || level == HighRisk
    ensures defensive ==> targets == DefensiveEtfs && weights == EqualWeights(|DefensiveEtfs|)
    ensures !defensive ==> (targets == [] <==> |Ranked(scores, ScoreThreshold)| == 0)
    ensures !defensive ==> forall t :: t in targets ==> t in Keys(Ranked(scores, ScoreThreshold)) && HasKey(scores, t)
    ensures !defensive ==> targets == Selection(Keys(Ranked(scores, ScoreThreshold)), EtfStyle, MaxHoldings)
    ensures !defensive ==> |targets| == if |Ranked(scores, ScoreThreshold)| < MaxHoldings
                                        then |Ranked(scores, ScoreThreshold)| else MaxHoldings
    ensures !defensive && |targets| > 0 ==>
      |Ranked(scores, ScoreThreshold)| > 0 && targets[0] == Ranked(scores, ScoreThreshold)[0].0
    ensures !defensive && |targets| > 1 ==>
      |Ranked(scores, ScoreThreshold)| > 1 && targets[1] == Ranked(scores, ScoreThreshold)[1].0
    ensures !defensive && scoreWeights ==> weights == ScoreBasedWeighting(ScoresOf(scores, targets))
    ensures !defensive && !scoreWeights ==> weights == EqualWeights(|targets|)
    ensures Distinct(targets)
    ensures |weights| == |targets|
    ensures forall i :: 0 <= i < |weights| ==> weights[i] >= 0.0
    ensures |targets| > 0 ==> Sum(weights) == 1.0
  {
    defensive := positiveCount < MinPositiveCount || level == HighRisk;
    if defensive {
      DefensiveEtfsDistinct();
      targets := DefensiveEtfs;
      weights := EqualWeights(|DefensiveEtfs|);
    } else {
      targets, weights := DiversifiedTargets(scores, scoreWeights);
    }
  }

  // ---------------------------------------------------------------------------
  // The open job's orders and tables, as values
  // ---------------------------------------------------------------------------

  /** `order_target_value(etf, 0)` for each symbol, in order. */
  function ZeroOrders(symbols: seq<string>): (orders: seq<JqOrder>)
    ensures |orders| == |symbols|
    ensures forall i :: 0 <= i < |symbols| ==> orders[i] == TargetValue(symbols[i], 0.0)
  {
    seq(|symbols|, i requires 0 <= i < |symbols| => TargetValue(symbols[i], 0.0))
  }

  /** `context.portfolio.total_value * g.total_position_ratio`: what the buy loop may spend. */
  function Budget(totalValue: real, ratio: real): real
  {
    totalValue * ratio
  }

  lemma ZeroOrdersStep(symbols: seq<string>, i: nat)
    requires i < |symbols|
    ensures ZeroOrders(symbols[..i + 1]) == ZeroOrders(symbols[..i]) + [TargetValue(symbols[i], 0.0)]
  {
    assert |ZeroOrders(symbols[..i + 1])| == i + 1;
  }

  /** The orders a step places, with the cost and high tables it leaves. */
  datatype Book = Book(orders: seq<JqOrder>, cost: map<string, real>, high: map<string, real>)

  /**
   * Step 1: the exit scan's take-profit orders, then a zero target for each
   * stopped symbol, whose cost and high are forgotten.
   */
  function StopSales(positions: seq<(string, Holding)>, prices: map<string, real>, cost: map<string, real>,
                     high: map<string, real>, stopLoss: real, trailingStop: real, takeProfit: real): Book
    requires PositiveCosts(cost)
  {
    var e := Exits(positions, prices, cost, high, stopLoss, trailingStop, takeProfit);
    Book(e.orders + ZeroOrders(e.sells), cost - Elements(e.sells), e.high - Elements(e.sells))
  }

  /**
   * Steps 4 and 5: a zero target for each held symbol outside the targets,
   * forgetting its cost and high, then the buy loop over what is left.
   */
  function TradeBook(targets: seq<string>, weights: seq<real>, positions: seq<(string, Holding)>,
                     prices: map<string, real>, budget: real, cost: map<string, real>, high: map<string, real>): Book
  {
    var u := Untargeted(positions, targets);
    var b := Buys(targets, weights, positions, prices, budget, cost - Elements(u), high - Elements(u));
    Book(ZeroOrders(u) + b.orders, b.cost, b.high)
  }

  /**
   * `market_open` past the gate, from the regime `r`: the stop sales; then,
   * outside the defensive regime with no qualifying ETF, a zero target for
   * every held symbol; otherwise the untargeted sales and the buys of the
   * regime's plan against the account value times the regime's exposure.
   */
  function RebalanceBook(r: Regime, positions: seq<(string, Holding)>, totalValue: real, prices: map<string, real>,
                         scoreWeights: bool, cost: map<string, real>, high: map<string, real>): Book
    requires DistinctKeys(r.factorScores) && PositiveCosts(cost)
  {
    var e := StopSales(positions, prices, cost, high, r.dynamicStopLoss, r.dynamicTrailingStop, r.dynamicTakeProfit);
    var plan := PlanOf(r.factorScores, r.positiveCount, r.marketRiskLevel, scoreWeights);
    if !plan.defensive && |plan.targets| == 0 then
      var held := Elements(Keys(positions));
      Book(e.orders + ZeroOrders(Keys(positions)), e.cost - held, e.high - held)
    else
      var budget := Budget(totalValue, Exposure(r.positiveCount, r.marketRiskLevel));
      var t := TradeBook(plan.targets, plan.weights, positions, prices, budget, e.cost, e.high);
      Book(e.orders + t.orders, t.cost, t.high)
  }

  /** The clearing branch of `RebalanceBook`, given the stop sales and the plan. */
  lemma RebalanceCleared(r: Regime, positions: seq<(string, Holding)>, totalValue: real, prices: map<string, real>,
                         scoreWeights: bool, cost: map<string, real>, high: map<string, real>, e: Book, plan: Plan)
    requires DistinctKeys(r.factorScores) && PositiveCosts(cost)
    requires e == StopSales(positions, prices, cost, high, r.dynamicStopLoss, r.dynamicTrailingStop, r.dynamicTakeProfit)
    requires plan == PlanOf(r.factorScores, r.positiveCount, r.marketRiskLevel, scoreWeights)
    requires !plan.defensive && |plan.targets| == 0
    ensures RebalanceBook(r, positions, totalValue, prices, scoreWeights, cost, high) ==
      Book(e.orders + ZeroOrders(Keys(positions)), e.cost - Elements(Keys(positions)), e.high - Elements(Keys(positions)))
  {
  }

  /** The trading branch of `RebalanceBook`, given the stop sales, the plan and the trade. */
  lemma RebalanceTraded(r: Regime, positions: seq<(string, Holding)>, totalValue: real, prices: map<string, real>,
                        scoreWeights: bool, cost: map<string, real>, high: map<string, real>, e: Book, plan: Plan,
                        ratio: real, t: Book)
    requires DistinctKeys(r.factorScores) && PositiveCosts(cost)
    requires e == StopSales(positions, prices, cost, high, r.dynamicStopLoss, r.dynamicTrailingStop, r.dynamicTakeProfit)
    requires plan == PlanOf(r.factorScores, r.positiveCount, r.marketRiskLevel, scoreWeights)
    requires plan.defensive || |plan.targets| > 0
    requires ratio == Exposure(r.positiveCount, r.marketRiskLevel)
    requires t == TradeBook(plan.targets, plan.weights, positions, prices, Budget(totalValue, ratio), e.cost, e.high)
    ensures RebalanceBook(r, positions, totalValue, prices, scoreWeights, cost, high) ==
      Book(e.orders + t.orders, t.cost, t.high)
  {
  }

  /**
   * The stop sales place only zero or take-profit targets on held symbols,
   * forget only held symbols' costs and highs, and never add a cost.
   */
  lemma StopSalesFacts(positions: seq<(string, Holding)>, prices: map<string, real>, cost: map<string, real>,
                       high: map<string, real>, stopLoss: real, trailingStop: real, takeProfit: real)
    requires PositiveCosts(cost)
    ensures var b := StopSales(positions, prices, cost, high, stopLoss, trailingStop, takeProfit);
      && (forall o :: o in b.orders ==> o.TargetValue? && o.symbol in Keys(positions))
      && (forall k :: k in b.cost ==> k in cost)
      && (forall k :: k !in Keys(positions) ==> (k in b.cost <==> k in cost) && (k in b.high <==> k in high))
  {
    var e := Exits(positions, prices, cost, high, stopLoss, trailingStop, takeProfit);
    ExitsOutcome(positions, prices, cost, high, stopLoss, trailingStop, takeProfit);
    var z := ZeroOrders(e.sells);
    forall o | o in e.orders + z ensures o.TargetValue? && o.symbol in Keys(positions) {
      if o !in e.orders {
        var i :| 0 <= i < |z| && z[i] == o;
        assert e.sells[i] in e.sells;
      }
    }
  }

  /**
   * The trading step places zero targets and whole-lot buys, and a symbol
   * keeps or gains a cost only if it was costed and not held, or is a target.
   */
  lemma TradeBookFacts(targets: seq<string>, weights: seq<real>, positions: seq<(string, Holding)>,
                       prices: map<string, real>, budget: real, cost: map<string, real>, high: map<string, real>)
    requires PositiveCosts(cost)
    ensures var t := TradeBook(targets, weights, positions, prices, budget, cost, high);
      && (forall o :: o in t.orders ==> o.TargetValue? || (o.Shares? && o.amount > 0 && o.amount % 100 == 0))
      && (forall k :: k in t.cost ==> (k in cost && k !in Keys(positions)) || k in targets)
  {
    var u := Untargeted(positions, targets);
    var cost1 := cost - Elements(u);
    assert PositiveCosts(cost1);
    BuysOutcome(targets, weights, positions, prices, budget, cost1, high - Elements(u));
    var z := ZeroOrders(u);
    var b := Buys(targets, weights, positions, prices, budget, cost1, high - Elements(u));
    forall o | o in z + b.orders ensures o.TargetValue? || (o.Shares? && o.amount > 0 && o.amount % 100 == 0) {
      if o !in b.orders {
        var i :| 0 <= i < |z| && z[i] == o;
      }
    }
  }

  /**
   * The plan: the defensive basket exactly in the defensive regime;
   * otherwise qualifying ETFs only, and none exactly when none qualifies.
   */
  lemma PlanOfFacts(scores: seq<(string, real)>, positiveCount: nat, level: Trend, scoreWeights: bool)
    requires DistinctKeys(scores)
    ensures var plan := PlanOf(scores, positiveCount, level, scoreWeights);
      && (plan.defensive <==> positiveCount < MinPositiveCount || level == HighRisk)
      && (plan.defensive ==> plan.targets == DefensiveEtfs)
      && (!plan.defensive ==> (plan.targets == [] <==> |Ranked(scores, ScoreThreshold)| == 0))
      && (forall t :: t in plan.targets ==> Eligible(scores, positiveCount, level, t))
  {
    if !(positiveCount < MinPositiveCount || level == HighRisk) {
      var syms := Keys(Ranked(scores, ScoreThreshold));
      RankedSymbolsQualify(scores, ScoreThreshold);
      SelectionFacts(syms, EtfStyle, MaxHoldings);
    }
  }

  /**
   * What `market_open` past the gate leaves: when it clears the book, zero
   * targets only and exactly the costs and highs of unheld symbols; when it
   * trades, zero targets and whole-lot buys, and a cost only for an unheld
   * symbol that had one or for a symbol the regime may hold.
   */
  lemma RebalanceBookFacts(r: Regime, positions: seq<(string, Holding)>, totalValue: real, prices: map<string, real>,
                           scoreWeights: bool, cost: map<string, real>, high: map<string, real>)
    requires DistinctKeys(r.factorScores) && PositiveCosts(cost)
    ensures var b := RebalanceBook(r, positions, totalValue, prices, scoreWeights, cost, high);
      var cleared := !(r.positiveCount < MinPositiveCount || r.marketRiskLevel == HighRisk)
                     && |Ranked(r.factorScores, ScoreThreshold)| == 0;
      && (cleared ==>
            && (forall o :: o in b.orders ==> o.TargetValue?)
            && (forall k :: k in b.cost <==> k in cost && k !in Keys(positions))
            && (forall k :: k in b.high <==> k in high && k !in Keys(positions)))
      && (!cleared ==>
            && (forall o :: o in b.orders ==> o.TargetValue? || (o.Shares? && o.amount > 0 && o.amount % 100 == 0))
            && (forall k :: k in b.cost ==>
                  (k in cost && k !in Keys(positions)) || Eligible(r.factorScores, r.positiveCount, r.marketRiskLevel, k)))
  {
    var e := StopSales(positions, prices, cost, high, r.dynamicStopLoss, r.dynamicTrailingStop, r.dynamicTakeProfit);
    StopSalesFacts(positions, prices, cost, high, r.dynamicStopLoss, r.dynamicTrailingStop, r.dynamicTakeProfit);
    var plan := PlanOf(r.factorScores, r.positiveCount, r.marketRiskLevel, scoreWeights);
    PlanOfFacts(r.factorScores, r.positiveCount, r.marketRiskLevel, scoreWeights);
    if !plan.defensive && |plan.targets| == 0 {
      RebalanceCleared(r, positions, totalValue, prices, scoreWeights, cost, high, e, plan);
      var z := ZeroOrders(Keys(positions));
      forall o | o in e.orders + z ensures o.TargetValue? {
        if o !in e.orders {
          var i :| 0 <= i < |z| && z[i] == o;
        }
      }
    } else {
      var ratio := Exposure(r.positiveCount, r.marketRiskLevel);
      var t := TradeBook(plan.targets, plan.weights, positions, prices, Budget(totalValue, ratio), e.cost, e.high);
      RebalanceTraded(r, positions, totalValue, prices, scoreWeights, cost, high, e, plan, ratio, t);
      TradeBookFacts(plan.targets, plan.weights, positions, prices, Budget(totalValue, ratio), e.cost, e.high);
    }
  }

  // ---------------------------------------------------------------------------
  // The global state
  // ---------------------------------------------------------------------------

  /** A symbol the plan may hold: the defensive basket, or a qualifying ETF. */
  predicate Eligible(scores: seq<(string, real)>, positiveCount: nat, level: Trend, s: string)
  {
    if positiveCount < MinPositiveCount || level == HighRisk then s in DefensiveEtfs
    else s in Keys(Ranked(scores, ScoreThreshold))
  }

  /** The part of the global state that only the pre-open job writes. */
  datatype Regime = Regime(factorScores: seq<(string, real)>, positiveCount: nat, marketVolQuantile: real,
                           dynamicStopLoss: real, dynamicTrailingStop: real, dynamicTakeProfit: real,
                           marketRiskLevel: Trend)

  class Globals {
    var factorScores: seq<(string, real)>
    var positiveCount: nat
    var marketVolQuantile: real
    var dynamicStopLoss: real
    var dynamicTrailingStop: real
    var dynamicTakeProfit: real
    var marketRiskLevel: Trend
    var totalPositionRatio: real
    var holdCost: map<string, real>
    var holdHigh: map<string, real>

    /**
     * The score table is a dictionary over the universe whose positive count
     * is kept beside it, and every recorded cost is positive (it is a price or
     * an average of positive prices).
     */
    ghost predicate Valid()
      reads this
    {
      && DistinctKeys(factorScores)
      && positiveCount == CountPositive(factorScores)
      && PositiveCosts(holdCost)
    }

    /** `initialize`: empty score, cost and high tables, a neutral regime at q = 0.5 and full exposure. */
    constructor ()
      ensures Valid()
      ensures factorScores == [] && positiveCount == 0
      ensures marketVolQuantile == 0.5 && marketRiskLevel == Neutral && totalPositionRatio == 1.0
      ensures dynamicStopLoss == StopLossBase && dynamicTrailingStop == TrailingStopBase
      ensures dynamicTakeProfit == TakeProfitRatio
      ensures holdCost == map[] && holdHigh == map[]
    {
      factorScores := [];
      positiveCount := 0;
      marketVolQuantile := 0.5;
      dynamicStopLoss := StopLossBase;
      dynamicTrailingStop := TrailingStopBase;
      dynamicTakeProfit := TakeProfitRatio;
      marketRiskLevel := Neutral;
      totalPositionRatio := 1.0;
      holdCost := map[];
      holdHigh := map[];
    }

    /** `update_hold_high`: each held ETF with a price (not None or NaN) raises its recorded high. */
    method UpdateHoldHigh(held: seq<string>, prices: map<string, real>)
      requires Valid()
      modifies this
      ensures Valid()
      ensures holdHigh == RaisedHighs(old(holdHigh), held, prices)
      ensures holdCost == old(holdCost) && factorScores == old(factorScores) && positiveCount == old(positiveCount)
      ensures marketVolQuantile == old(marketVolQuantile) && marketRiskLevel == old(marketRiskLevel)
      ensures dynamicStopLoss == old(dynamicStopLoss) && dynamicTrailingStop == old(dynamicTrailingStop)
      ensures dynamicTakeProfit == old(dynamicTakeProfit) && totalPositionRatio == old(totalPositionRatio)
    {
      var i := 0;
      while i < |held|
        invariant 0 <= i <= |held|
        invariant holdHigh == RaisedHighs(old(holdHigh), held[..i], prices)
        invariant holdCost == old(holdCost) && factorScores == old(factorScores) && positiveCount == old(positiveCount)
        invariant marketVolQuantile == old(marketVolQuantile) && marketRiskLevel == old(marketRiskLevel)
        invariant dynamicStopLoss == old(dynamicStopLoss) && dynamicTrailingStop == old(dynamicTrailingStop)
        invariant dynamicTakeProfit == old(dynamicTakeProfit) && totalPositionRatio == old(totalPositionRatio)
      {
        assert held[..i + 1][..i] == held[..i];
        var s := held[i];
        if s in prices {
          var price := prices[s];
          if s !in holdHigh {
            holdHigh := holdHigh[s := price];
          } else {
            holdHigh := holdHigh[s := Max(holdHigh[s], price)];
          }
        }
        i := i + 1;
      }
      assert held[..|held|] == held;
    }

    /**
     * `before_market_open`: clears the table and the count, derives the
     * percentile, the dynamic thresholds and the regime, and, when the
     * previous trading day is known, scores the fetched ETFs in universe
     * order: a volume or drop filter records composite 0, otherwise the
     * kernels' composite is recorded and counted when positive.
     */
    method BeforeMarketOpen(index: Option<VolInput>, indexCloses: Option<seq<real>>, hasPreviousDay: bool,
                            fetched: map<string, EtfData>)
      requires Valid()
      modifies this
      ensures Valid()
      ensures marketVolQuantile == MarketVolQuantile(index)
      ensures dynamicStopLoss == Risk.WidenedStop(StopLossBase, marketVolQuantile)
      ensures dynamicTrailingStop == Risk.WidenedStop(TrailingStopBase, marketVolQuantile)
      ensures dynamicTakeProfit == Risk.NarrowedTakeProfit(TakeProfitRatio, marketVolQuantile)
      ensures marketRiskLevel == MarketTrend(indexCloses, marketVolQuantile)
      ensures factorScores == if hasPreviousDay then ScoreTable(EtfList, fetched) else []
      ensures positiveCount == CountPositive(factorScores)
      ensures holdCost == old(holdCost) && holdHigh == old(holdHigh) && totalPositionRatio == old(totalPositionRatio)
    {
      SetRegime(index, indexCloses);
      if !hasPreviousDay {
        return;
      }
      ScoreEtfs(EtfList, fetched);
      EtfListDistinct();
      ScoreTableDistinct(EtfList, fetched);
    }

    function Today(): Regime
      reads this
    {
      Regime(factorScores, positiveCount, marketVolQuantile, dynamicStopLoss, dynamicTrailingStop, dynamicTakeProfit,
             marketRiskLevel)
    }

    /**
     * The stop-loss and take-profit scan of `market_open` over the held
     * positions: a stop collects the symbol (a trailing stop also forgets its
     * high), a take-profit orders half the position's value and resets the
     * high to the price.
     */
    method ScanExits(positions: seq<(string, Holding)>, prices: map<string, real>)
      returns (sells: seq<string>, orders: seq<JqOrder>)
      requires Valid()
      modifies this
      ensures Valid()
      ensures ExitPass(sells, orders, holdHigh) ==
        Exits(positions, prices, holdCost, old(holdHigh), dynamicStopLoss, dynamicTrailingStop, dynamicTakeProfit)
      ensures Today() == old(Today()) && holdCost == old(holdCost) && totalPositionRatio == old(totalPositionRatio)
    {
      sells := [];
      orders := [];
      var i := 0;
      while i < |positions|
        invariant 0 <= i <= |positions|
        invariant Valid()
        invariant ExitPass(sells, orders, holdHigh) ==
          Exits(positions[..i], prices, holdCost, old(holdHigh), dynamicStopLoss, dynamicTrailingStop, dynamicTakeProfit)
        invariant Today() == old(Today()) && holdCost == old(holdCost) && totalPositionRatio == old(totalPositionRatio)
      {
        assert positions[..i + 1][..i] == positions[..i];
        var s := positions[i].0;
        match ExitOf(s, positions[i].1, prices, holdCost, holdHigh, dynamicStopLoss, dynamicTrailingStop, dynamicTakeProfit) {
          case Keep =>
          case Stop(reason) =>
            sells := sells + [s];
            if reason == Risk.TrailingStop {
              holdHigh := holdHigh - {s};
            }
          case TakeProfit(value, price) =>
            orders := orders + [TargetValue(s, value)];
            holdHigh := holdHigh[s := price];
        }
        i := i + 1;
      }
      assert positions[..|positions|] == positions;
    }

    /** Drops a symbol's cost and high (each `del` guarded by `in`). */
    method Forget(s: string)
      requires Valid()
      modifies this
      ensures Valid()
      ensures holdCost == old(holdCost) - {s} && holdHigh == old(holdHigh) - {s}
      ensures Today() == old(Today()) && totalPositionRatio == old(totalPositionRatio)
    {
      if s in holdCost {
        holdCost := holdCost - {s};
      }
      if s in holdHigh {
        holdHigh := holdHigh - {s};
      }
    }

    /** `order_target_value(etf, 0)` for each symbol, forgetting its cost and high. */
    method Liquidate(symbols: seq<string>) returns (orders: seq<JqOrder>)
      requires Valid()
      modifies this
      ensures Valid()
      ensures orders == ZeroOrders(symbols)
      ensures holdCost == old(holdCost) - Elements(symbols) && holdHigh == old(holdHigh) - Elements(symbols)
      ensures Today() == old(Today()) && totalPositionRatio == old(totalPositionRatio)
    {
      orders := [];
      var i := 0;
      while i < |symbols|
        invariant 0 <= i <= |symbols|
        invariant orders == ZeroOrders(symbols[..i])
        invariant holdCost == old(holdCost) - Elements(symbols[..i]) && holdHigh == old(holdHigh) - Elements(symbols[..i])
        invariant Valid()
        invariant Today() == old(Today()) && totalPositionRatio == old(totalPositionRatio)
      {
        var s := symbols[i];
        PrefixElements(symbols, i);
        MapMinusStep(old(holdCost), Elements(symbols[..i]), s);
        MapMinusStep(old(holdHigh), Elements(symbols[..i]), s);
        ZeroOrdersStep(symbols, i);
        orders := orders + [TargetValue(s, 0.0)];
        Forget(s);
        i := i + 1;
      }
      assert symbols[..|symbols|] == symbols;
    }

    /**
     * The buy loop of `market_open` against `budget` (the account value
     * times the exposure): each bought target records its new cost and a
     * high equal to the price.
     */
    method BuyTargets(targets: seq<string>, weights: seq<real>, positions: seq<(string, Holding)>,
                      prices: map<string, real>, budget: real)
      returns (orders: seq<JqOrder>)
      requires Valid()
      modifies this
      ensures Valid()
      ensures BuyPass(orders, holdCost, holdHigh) ==
        Buys(targets, weights, positions, prices, budget, old(holdCost), old(holdHigh))
      ensures Today() == old(Today()) && totalPositionRatio == old(totalPositionRatio)
    {
      orders := [];
      var i := 0;
      while i < |targets|
        invariant 0 <= i <= |targets|
        invariant Valid()
        invariant BuyPass(orders, holdCost, holdHigh) ==
          Buys(targets[..i], weights, positions, prices, budget, old(holdCost), old(holdHigh))
        invariant Today() == old(Today()) && totalPositionRatio == old(totalPositionRatio)
      {
        assert targets[..i + 1][..i] == targets[..i];
        var s := targets[i];
        ghost var p := BuyPass(orders, holdCost, holdHigh);
        assert Buys(targets[..i + 1], weights, positions, prices, budget, old(holdCost), old(holdHigh)) ==
          BuyOne(p, s, i, weights, positions, prices, budget);
        if i < |weights| && s in prices && prices[s] > 0.0 {
          var price := prices[s];
          var amount := BuyAmount(budget * weights[i], price);
          if amount > 0 {
            orders := orders + [Shares(s, amount)];
            holdCost := holdCost[s := NewCost(positions, s, price, amount, holdCost)];
            holdHigh := holdHigh[s := price];
          }
        }
        assert BuyPass(orders, holdCost, holdHigh) == BuyOne(p, s, i, weights, positions, prices, budget);
        i := i + 1;
      }
      assert targets[..|targets|] == targets;
    }

    /**
     * `market_open`.  Without scores nothing happens; off the rebalance
     * weekday the drift gate may stop the job (a zero account value with
     * open positions raises before any order).  Otherwise: the exit scan and
     * its stop sales, the regime's exposure, then either clearing the whole
     * book (no qualifying ETF outside the defensive regime) or selling the
     * untargeted holdings and buying the targets.
     */
    method MarketOpen(weekday: int, positions: seq<(string, Holding)>, totalValue: real, prices: map<string, real>,
                      scoreWeights: bool)
      returns (orders: seq<JqOrder>, outcome: Outcome)
      requires Valid()
      modifies this
      ensures Valid()
      ensures Today() == old(Today())
      ensures var stop := Gate(old(factorScores), weekday, positions, totalValue);
        && (stop.Some? ==> outcome == stop.value && orders == [] && holdCost == old(holdCost)
                           && holdHigh == old(holdHigh) && totalPositionRatio == old(totalPositionRatio))
        && (stop.None? ==> outcome in {Cleared, Traded})
      ensures outcome in {Cleared, Traded} ==> totalPositionRatio == Exposure(positiveCount, marketRiskLevel)
      ensures outcome in {Cleared, Traded} ==>
        Book(orders, holdCost, holdHigh) ==
          RebalanceBook(Today(), positions, totalValue, prices, scoreWeights, old(holdCost), old(holdHigh))
      ensures outcome == Cleared <==>
        && outcome !in {NoScores, DivisionByZero, NoDrift}
        && !(positiveCount < MinPositiveCount || marketRiskLevel == HighRisk)
        && |Ranked(factorScores, ScoreThreshold)| == 0
    {
      orders := [];
      var stop := Gate(factorScores, weekday, positions, totalValue);
      if stop.Some? {
        outcome := stop.value;
        return;
      }
      orders, outcome := Rebalance(positions, totalValue, prices, scoreWeights);
    }

    /** The trading part of `market_open`, once the gate has let it through. */
    method Rebalance(positions: seq<(string, Holding)>, totalValue: real, prices: map<string, real>, scoreWeights: bool)
      returns (orders: seq<JqOrder>, outcome: Outcome)
      requires Valid()
      modifies this
      ensures Valid()
      ensures Today() == old(Today())
      ensures factorScores == old(factorScores) && positiveCount == old(positiveCount)
      ensures marketRiskLevel == old(marketRiskLevel)
      ensures Book(orders, holdCost, holdHigh) ==
        RebalanceBook(Today(), positions, totalValue, prices, scoreWeights, old(holdCost), old(holdHigh))
      ensures totalPositionRatio == Exposure(positiveCount, marketRiskLevel)
      ensures outcome == Cleared || outcome == Traded
      ensures outcome == Cleared <==>
        !(positiveCount < MinPositiveCount || marketRiskLevel == HighRisk) && |Ranked(factorScores, ScoreThreshold)| == 0
    {
      ghost var r := Today();
      var exitOrders := ApplyExits(positions, prices);
      assert r == Today();
      assert r.factorScores == factorScores && r.positiveCount == positiveCount && r.marketRiskLevel == marketRiskLevel;
      ghost var e := Book(exitOrders, holdCost, holdHigh);
      assert e == StopSales(positions, prices, old(holdCost), old(holdHigh),
                            r.dynamicStopLoss, r.dynamicTrailingStop, r.dynamicTakeProfit);
      orders, outcome := FollowPlan(positions, totalValue, prices, scoreWeights, exitOrders, r, old(holdCost),
                                    old(holdHigh), e);
    }

    /**
     * Steps 2 to 5 of `market_open`, after the stop sales `exitOrders` of
     * regime `r`: the plan, the exposure, then clearing the book or trading.
     */
    method FollowPlan(positions: seq<(string, Holding)>, totalValue: real, prices: map<string, real>, scoreWeights: bool,
                      exitOrders: seq<JqOrder>, ghost r: Regime, ghost cost0: map<string, real>,
                      ghost high0: map<string, real>, ghost e: Book)
      returns (orders: seq<JqOrder>, outcome: Outcome)
      requires Valid() && Today() == r
      requires DistinctKeys(r.factorScores) && PositiveCosts(cost0)
      requires e == StopSales(positions, prices, cost0, high0, r.dynamicStopLoss, r.dynamicTrailingStop, r.dynamicTakeProfit)
      requires exitOrders == e.orders && holdCost == e.cost && holdHigh == e.high
      modifies this
      ensures Valid() && Today() == r
      ensures Book(orders, holdCost, holdHigh) == RebalanceBook(r, positions, totalValue, prices, scoreWeights, cost0, high0)
      ensures totalPositionRatio == Exposure(r.positiveCount, r.marketRiskLevel)
      ensures outcome == Cleared || outcome == Traded
      ensures outcome == Cleared <==>
        !(r.positiveCount < MinPositiveCount || r.marketRiskLevel == HighRisk) && |Ranked(r.factorScores, ScoreThreshold)| == 0
    {
      var defensive, targets, weights := PlanTargets(factorScores, positiveCount, marketRiskLevel, scoreWeights);
      ghost var plan := Plan(defensive, targets, weights);
      SetExposure();
      if !defensive && |targets| == 0 {
        var clearOrders := ClearAll(positions, totalValue, prices, scoreWeights, exitOrders, r, cost0, high0, e, plan);
        orders := exitOrders + clearOrders;
        outcome := Cleared;
      } else {
        var tradeOrders := TradePlan(positions, totalValue, prices, scoreWeights, exitOrders, targets, weights, r,
                                     cost0, high0, e, plan);
        orders := exitOrders + tradeOrders;
        outcome := Traded;
      }
    }

    /** Step 2 of `market_open`: the exposure of the current regime. */
    method SetExposure()
      requires Valid()
      modifies this
      ensures Valid()
      ensures totalPositionRatio == Exposure(positiveCount, marketRiskLevel)
      ensures Today() == old(Today()) && holdCost == old(holdCost) && holdHigh == old(holdHigh)
    {
      totalPositionRatio := Exposure(positiveCount, marketRiskLevel);
    }

    /**
     * The clearing branch of `Rebalance`: after the stop sales `exitOrders`,
     * with no qualifying ETF outside the defensive regime, a zero target for
     * every held symbol.
     */
    method ClearAll(positions: seq<(string, Holding)>, totalValue: real, prices: map<string, real>, scoreWeights: bool,
                    exitOrders: seq<JqOrder>, ghost r: Regime, ghost cost0: map<string, real>,
                    ghost high0: map<string, real>, ghost e: Book, ghost plan: Plan)
      returns (clearOrders: seq<JqOrder>)
      requires Valid() && Today() == r
      requires DistinctKeys(r.factorScores) && PositiveCosts(cost0)
      requires e == StopSales(positions, prices, cost0, high0, r.dynamicStopLoss, r.dynamicTrailingStop, r.dynamicTakeProfit)
      requires exitOrders == e.orders && holdCost == e.cost && holdHigh == e.high
      requires plan == PlanOf(r.factorScores, r.positiveCount, r.marketRiskLevel, scoreWeights)
      requires !plan.defensive && |plan.targets| == 0
      modifies this
      ensures Valid()
      ensures Today() == r && totalPositionRatio == old(totalPositionRatio)
      ensures Book(exitOrders + clearOrders, holdCost, holdHigh) ==
        RebalanceBook(r, positions, totalValue, prices, scoreWeights, cost0, high0)
    {
      clearOrders := Liquidate(Keys(positions));
      assert Book(exitOrders + clearOrders, holdCost, holdHigh) ==
        Book(e.orders + ZeroOrders(Keys(positions)), e.cost - Elements(Keys(positions)), e.high - Elements(Keys(positions)));
      RebalanceCleared(r, positions, totalValue, prices, scoreWeights, cost0, high0, e, plan);
    }

    /**
     * The trading branch of `Rebalance`: after the stop sales `exitOrders`,
     * the untargeted sales and the buys of the plan against the account
     * value times the exposure.
     */
    method TradePlan(positions: seq<(string, Holding)>, totalValue: real, prices: map<string, real>, scoreWeights: bool,
                     exitOrders: seq<JqOrder>, targets: seq<string>, weights: seq<real>, ghost r: Regime,
                     ghost cost0: map<string, real>, ghost high0: map<string, real>, ghost e: Book, ghost plan: Plan)
      returns (tradeOrders: seq<JqOrder>)
      requires Valid() && Today() == r
      requires DistinctKeys(r.factorScores) && PositiveCosts(cost0)
      requires e == StopSales(positions, prices, cost0, high0, r.dynamicStopLoss, r.dynamicTrailingStop, r.dynamicTakeProfit)
      requires exitOrders == e.orders && holdCost == e.cost && holdHigh == e.high
      requires plan == PlanOf(r.factorScores, r.positiveCount, r.marketRiskLevel, scoreWeights)
      requires plan.defensive || |plan.targets| > 0
      requires targets == plan.targets && weights == plan.weights
      requires totalPositionRatio == Exposure(r.positiveCount, r.marketRiskLevel)
      modifies this
      ensures Valid()
      ensures Today() == r && totalPositionRatio == old(totalPositionRatio)
      ensures Book(exitOrders + tradeOrders, holdCost, holdHigh) ==
        RebalanceBook(r, positions, totalValue, prices, scoreWeights, cost0, high0)
    {
      tradeOrders := Trade(targets, weights, positions, prices, totalValue);
      ghost var t := Book(tradeOrders, holdCost, holdHigh);
      assert t == TradeBook(targets, weights, positions, prices, Budget(totalValue, totalPositionRatio), e.cost, e.high);
      assert Book(exitOrders + tradeOrders, holdCost, holdHigh) == Book(e.orders + t.orders, t.cost, t.high);
      RebalanceTraded(r, positions, totalValue, prices, scoreWeights, cost0, high0, e, plan, totalPositionRatio, t);
    }

    /**
     * Step 1 of `market_open`: the exit scan, then the sale of every stopped
     * holding.  Only held symbols are ordered, and the costs and highs of
     * symbols outside the positions are untouched.
     */
    method ApplyExits(positions: seq<(string, Holding)>, prices: map<string, real>) returns (orders: seq<JqOrder>)
      requires Valid()
      modifies this
      ensures Valid()
      ensures Book(orders, holdCost, holdHigh) ==
        StopSales(positions, prices, old(holdCost), old(holdHigh), dynamicStopLoss, dynamicTrailingStop, dynamicTakeProfit)
      ensures Today() == old(Today()) && totalPositionRatio == old(totalPositionRatio)
      ensures forall o :: o in orders ==> o.TargetValue? && o.symbol in Keys(positions)
      ensures forall k :: k in holdCost ==> k in old(holdCost)
      ensures forall k :: k !in Keys(positions) ==>
        (k in holdCost <==> k in old(holdCost)) && (k in holdHigh <==> k in old(holdHigh))
    {
      ghost var cost0 := holdCost;
      ghost var high0 := holdHigh;
      var sells, profitOrders := ScanExits(positions, prices);
      ExitsOutcome(positions, prices, cost0, high0, dynamicStopLoss, dynamicTrailingStop, dynamicTakeProfit);
      var stopOrders := Liquidate(sells);
      orders := profitOrders + stopOrders;
    }

    /** Steps 4 and 5 of `market_open`: sell the untargeted holdings, then buy the targets. */
    method Trade(targets: seq<string>, weights: seq<real>, positions: seq<(string, Holding)>, prices: map<string, real>,
                 totalValue: real)
      returns (orders: seq<JqOrder>)
      requires Valid()
      modifies this
      ensures Valid()
      ensures Book(orders, holdCost, holdHigh) ==
        TradeBook(targets, weights, positions, prices, Budget(totalValue, totalPositionRatio), old(holdCost), old(holdHigh))
      ensures Today() == old(Today()) && totalPositionRatio == old(totalPositionRatio)
      ensures forall o :: o in orders ==> o.TargetValue? || (o.Shares? && o.amount > 0 && o.amount % 100 == 0)
      ensures forall k :: k in holdCost ==> (k in old(holdCost) && k !in Keys(positions)) || k in targets
    {
      ghost var u := Untargeted(positions, targets);
      var sellOrders := Liquidate(Untargeted(positions, targets));
      ghost var cost1 := holdCost;
      ghost var high1 := holdHigh;
      assert cost1 == old(holdCost) - Elements(u) && high1 == old(holdHigh) - Elements(u);
      var budget := Budget(totalValue, totalPositionRatio);
      var buyOrders := BuyTargets(targets, weights, positions, prices, budget);
      BuysOutcome(targets, weights, positions, prices, budget, cost1, high1);
      ghost var b := Buys(targets, weights, positions, prices, budget, cost1, high1);
      assert BuyPass(buyOrders, holdCost, holdHigh) == b;
      orders := sellOrders + buyOrders;
      assert Book(orders, holdCost, holdHigh) == Book(ZeroOrders(u) + b.orders, b.cost, b.high);
      assert TradeBook(targets, weights, positions, prices, budget, old(holdCost), old(holdHigh)) ==
        Book(ZeroOrders(u) + b.orders, b.cost, b.high);
      assert forall o :: o in orders ==> o in sellOrders || o in buyOrders;
    }

    /**
     * The first half of `before_market_open`: clears the table and the count,
     * then derives the percentile, the dynamic thresholds and the regime.
     */
    method SetRegime(index: Option<VolInput>, indexCloses: Option<seq<real>>)
      modifies this
      ensures factorScores == [] && positiveCount == 0
      ensures marketVolQuantile == MarketVolQuantile(index)
      ensures dynamicStopLoss == Risk.WidenedStop(StopLossBase, marketVolQuantile)
      ensures dynamicTrailingStop == Risk.WidenedStop(TrailingStopBase, marketVolQuantile)
      ensures dynamicTakeProfit == Risk.NarrowedTakeProfit(TakeProfitRatio, marketVolQuantile)
      ensures marketRiskLevel == MarketTrend(indexCloses, marketVolQuantile)
      ensures holdCost == old(holdCost) && holdHigh == old(holdHigh) && totalPositionRatio == old(totalPositionRatio)
    {
      factorScores := [];
      positiveCount := 0;
      var q := MarketVolQuantile(index);
      marketVolQuantile := q;
      dynamicStopLoss := Risk.WidenedStop(StopLossBase, q);
      dynamicTrailingStop := Risk.WidenedStop(TrailingStopBase, q);
      dynamicTakeProfit := Risk.NarrowedTakeProfit(TakeProfitRatio, q);
      marketRiskLevel := MarketTrend(indexCloses, q);
    }

    /** The scoring loop of the pre-open job over `universe`, starting from an empty table. */
    method ScoreEtfs(universe: seq<string>, fetched: map<string, EtfData>)
      requires factorScores == [] && positiveCount == 0
      modifies this
      ensures factorScores == ScoreTable(universe, fetched)
      ensures positiveCount == CountPositive(factorScores)
      ensures holdCost == old(holdCost) && holdHigh == old(holdHigh) && totalPositionRatio == old(totalPositionRatio)
      ensures marketVolQuantile == old(marketVolQuantile) && marketRiskLevel == old(marketRiskLevel)
      ensures dynamicStopLoss == old(dynamicStopLoss) && dynamicTrailingStop == old(dynamicTrailingStop)
      ensures dynamicTakeProfit == old(dynamicTakeProfit)
    {
      var i := 0;
      while i < |universe|
        invariant 0 <= i <= |universe|
        invariant factorScores == ScoreTable(universe[..i], fetched)
        invariant positiveCount == CountPositive(factorScores)
        invariant holdCost == old(holdCost) && holdHigh == old(holdHigh) && totalPositionRatio == old(totalPositionRatio)
        invariant marketVolQuantile == old(marketVolQuantile) && marketRiskLevel == old(marketRiskLevel)
        invariant dynamicStopLoss == old(dynamicStopLoss) && dynamicTrailingStop == old(dynamicTrailingStop)
        invariant dynamicTakeProfit == old(dynamicTakeProfit)
      {
        var s := universe[i];
        ScoreTableStep(universe, i, fetched);
        if s in fetched {
          var entry := ScoreEntry(fetched[s]);
          if entry.Some? {
            CountPositiveAppend(factorScores, (s, entry.value));
            factorScores := factorScores + [(s, entry.value)];
            if entry.value > 0.0 {
              positiveCount := positiveCount + 1;
            }
          }
        }
        i := i + 1;
      }
      assert universe[..|universe|] == universe;
    }
  }
}
