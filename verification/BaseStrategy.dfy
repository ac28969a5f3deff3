/**
 * The bookkeeping every strategy inherits: position weights, the
 * cost / high-water maps kept per symbol, order and trade notifications,
 * and the trade statistics.
 */
module BaseStrategy {
  import opened Seqs

  /** A broker position: share count and average price. */
  datatype Position = Position(size: real, price: real)

  /**
   * `get_position_weight`: the position's value as a fraction of the
   * account.  `feeds` are the symbols with a data feed, `positions` the
   * broker positions by symbol, `totalValue` the broker's account value.
   */
  function PositionWeight(symbol: string, feeds: set<string>, positions: map<string, Position>,
                          totalValue: real): (w: real)
    ensures (symbol !in feeds || symbol !in positions || positions[symbol].size <= 0.0
             || totalValue <= 0.0) ==> w == 0.0
    ensures symbol in feeds && symbol in positions && positions[symbol].size > 0.0 && totalValue > 0.0
            ==> w * totalValue == positions[symbol].size * positions[symbol].price
  {
    if symbol !in feeds then 0.0
    else if symbol !in positions || positions[symbol].size <= 0.0 then 0.0
    else if totalValue <= 0.0 then 0.0
    else positions[symbol].size * positions[symbol].price / totalValue
  }

  /** A held position worth no more than the account has a weight in [0, 1]. */
  lemma PositionWeightBounds(symbol: string, feeds: set<string>, positions: map<string, Position>,
                             totalValue: real)
    requires symbol in positions ==> positions[symbol].price >= 0.0
    requires symbol in positions ==> positions[symbol].size * positions[symbol].price <= totalValue
    ensures 0.0 <= PositionWeight(symbol, feeds, positions, totalValue) <= 1.0
  {
    var w := PositionWeight(symbol, feeds, positions, totalValue);
    if symbol in feeds && symbol in positions && positions[symbol].size > 0.0 && totalValue > 0.0 {
      var v := positions[symbol].size * positions[symbol].price;
      assert v >= 0.0;
      assert w * totalValue == v;
      WeightFromValue(w, v, totalValue);
    }
  }

  lemma WeightFromValue(w: real, v: real, total: real)
    requires total > 0.0 && 0.0 <= v <= total && w * total == v
    ensures 0.0 <= w <= 1.0
  {
  }

  /** One closed trade as `notify_trade` records it; the date is an opaque day number. */
  datatype TradeRecord = TradeRecord(symbol: string, pnl: real, pnlcomm: real, date: int)

  /** A backtrader trade notification. */
  datatype TradeEvent = TradeEvent(isClosed: bool, feedName: string, pnl: real, pnlcomm: real, date: int)

  datatype OrderStatus = Created | Submitted | Accepted | Partial | Completed | Canceled | Expired | Margin | Rejected

  /** A backtrader order notification, reduced to what the handler reads. */
  datatype OrderEvent = OrderEvent(status: OrderStatus, isBuy: bool, feedName: string, executedPrice: real)

  /** Number of trades with a positive net result. */
  function Wins(h: seq<TradeRecord>): (n: nat)
    ensures n <= |h|
  {
    if |h| == 0 then 0 else Wins(h[..|h| - 1]) + (if h[|h| - 1].pnlcomm > 0.0 then 1 else 0)
  }

  /** Sum of the net results, accumulated trade by trade. */
  function TotalPnl(h: seq<TradeRecord>): real
  {
    if |h| == 0 then 0.0 else TotalPnl(h[..|h| - 1]) + h[|h| - 1].pnlcomm
  }

  /** The net result of each trade, in order. */
  function NetResults(h: seq<TradeRecord>): (r: seq<real>)
    ensures |r| == |h| && forall i :: 0 <= i < |h| ==> r[i] == h[i].pnlcomm
  {
    seq(|h|, i requires 0 <= i < |h| => h[i].pnlcomm)
  }

  /** The accumulated total is the sum of the net results. */
  lemma {:induction false} TotalPnlIsSum(h: seq<TradeRecord>)
    ensures TotalPnl(h) == Sum(NetResults(h))
    decreases |h|
  {
    if |h| > 0 {
      var init := h[..|h| - 1];
      TotalPnlIsSum(init);
      assert NetResults(h)[..|h| - 1] == NetResults(init);
    }
  }

  datatype Stats = Stats(totalTrades: nat, totalPnl: real, winRate: real)

  /**
   * The history-derived part of `get_stats`: the trade count, the summed
   * net result and the share of winning trades (0 with no trades).
   */
  function TradeStats(h: seq<TradeRecord>): (s: Stats)
    ensures s.totalTrades == |h|
    ensures s.totalPnl == Sum(NetResults(h))
    ensures |h| > 0 ==> s.winRate * (|h| as real) == Wins(h) as real
    ensures 0.0 <= s.winRate <= 1.0
    ensures |h| == 0 ==> s.winRate == 0.0
    ensures s.winRate == 1.0 <==> |h| > 0 && forall i :: 0 <= i < |h| ==> h[i].pnlcomm > 0.0
    ensures s.winRate == 0.0 <==> forall i :: 0 <= i < |h| ==> h[i].pnlcomm <= 0.0
  {
    var n := |h|;
    var w := Wins(h);
    var rate := if n > 0 then (w as real) / (n as real) else 0.0;
    assert 0.0 <= rate <= 1.0 by {
      if n > 0 { RatioAtMostOne(w, n); }
    }
    assert rate == 1.0 <==> n > 0 && w == n by {
      if n > 0 { RatioIsOne(w, n); }
    }
    assert rate == 0.0 <==> w == 0 by {
      if n > 0 { RatioIsZero(w, n); }
    }
    assert n > 0 ==> rate * (n as real) == w as real;
    WinsAll(h);
    WinsNone(h);
    TotalPnlIsSum(h);
    Stats(n, TotalPnl(h), rate)
  }

  lemma RatioAtMostOne(w: nat, n: nat)
    requires 0 < n && w <= n
    ensures 0.0 <= (w as real) / (n as real) <= 1.0
  {
  }

  lemma RatioIsOne(w: nat, n: nat)
    requires 0 < n && w <= n
    ensures (w as real) / (n as real) == 1.0 <==> w == n
  {
    if (w as real) / (n as real) == 1.0 {
      assert (w as real) == (n as real) * 1.0;
    }
  }

  lemma RatioIsZero(w: nat, n: nat)
    requires 0 < n
    ensures (w as real) / (n as real) == 0.0 <==> w == 0
  {
    if (w as real) / (n as real) == 0.0 {
      assert (w as real) == (n as real) * 0.0;
    }
  }

  lemma {:induction false} WinsAll(h: seq<TradeRecord>)
    ensures Wins(h) == |h| <==> forall i :: 0 <= i < |h| ==> h[i].pnlcomm > 0.0
  {
    if |h| > 0 {
      var init := h[..|h| - 1];
      WinsAll(init);
      if Wins(h) == |h| {
        assert Wins(init) == |init| && h[|h| - 1].pnlcomm > 0.0;
        forall i | 0 <= i < |h| ensures h[i].pnlcomm > 0.0 {
          if i < |init| { assert h[i] == init[i]; }
        }
      }
      if forall i :: 0 <= i < |h| ==> h[i].pnlcomm > 0.0 {
        assert forall i :: 0 <= i < |init| ==> init[i].pnlcomm > 0.0 by {
          forall i | 0 <= i < |init| ensures init[i].pnlcomm > 0.0 { assert init[i] == h[i]; }
        }
      }
    }
  }

  lemma {:induction false} WinsNone(h: seq<TradeRecord>)
    ensures Wins(h) == 0 <==> forall i :: 0 <= i < |h| ==> h[i].pnlcomm <= 0.0
  {
    if |h| > 0 {
      var init := h[..|h| - 1];
      WinsNone(init);
      if Wins(h) == 0 {
        forall i | 0 <= i < |h| ensures h[i].pnlcomm <= 0.0 {
          if i < |init| { assert h[i] == init[i]; }
        }
      }
      if forall i :: 0 <= i < |h| ==> h[i].pnlcomm <= 0.0 {
        assert forall i :: 0 <= i < |init| ==> init[i].pnlcomm <= 0.0 by {
          forall i | 0 <= i < |init| ensures init[i].pnlcomm <= 0.0 { assert init[i] == h[i]; }
        }
      }
    }
  }

  /** Recording one more trade adds one to the count, its net result to the total, and one win if it gained. */
  lemma TradeStatsAppend(h: seq<TradeRecord>, r: TradeRecord)
    ensures TradeStats(h + [r]).totalTrades == TradeStats(h).totalTrades + 1
    ensures TradeStats(h + [r]).totalPnl == TradeStats(h).totalPnl + r.pnlcomm
    ensures Wins(h + [r]) == Wins(h) + (if r.pnlcomm > 0.0 then 1 else 0)
  {
    assert (h + [r])[..|h|] == h;
  }

  /**
   * The symbol the handlers derive from a feed: `getattr(name, 'name',
   * fallback)` where `name` is the feed's name, a string.  A string has no
   * `name` attribute, so the fallback is always what comes back.
   */
  function FeedSymbolAsWritten(feedName: string, fallback: string): (s: string)
    ensures s == fallback
  {
    fallback
  }

  /** The symbol the handlers evidently mean: the feed's own name. */
  function FeedSymbol(feedName: string): (s: string)
    ensures s == feedName
  {
    feedName
  }

  /** As written, a completed buy on feed "510300" is booked under "UNKNOWN". */
  lemma FeedSymbolAsWrittenLosesName()
    ensures FeedSymbolAsWritten("510300", "UNKNOWN") != FeedSymbol("510300")
  {
  }

  /**
   * The record `notify_trade` appends for a closed trade, as written: the
   * symbol comes from the same `getattr` idiom, so it is always "UNKNOWN".
   */
  function TradeRecordAsWritten(trade: TradeEvent): (r: TradeRecord)
    ensures r.symbol == "UNKNOWN"
    ensures r.pnl == trade.pnl && r.pnlcomm == trade.pnlcomm && r.date == trade.date
  {
    TradeRecord(FeedSymbolAsWritten(trade.feedName, "UNKNOWN"), trade.pnl, trade.pnlcomm, trade.date)
  }

  /** The record `notify_trade` evidently means: under the feed's own name. */
  function TradeRecordOf(trade: TradeEvent): (r: TradeRecord)
    ensures r.symbol == trade.feedName
    ensures r.pnl == trade.pnl && r.pnlcomm == trade.pnlcomm && r.date == trade.date
  {
    TradeRecord(FeedSymbol(trade.feedName), trade.pnl, trade.pnlcomm, trade.date)
  }

  /**
   * As written, a closed trade on any feed not itself named "UNKNOWN" (say
   * "510300") is recorded under another symbol than its feed's.
   */
  lemma TradeRecordAsWrittenLosesName(trade: TradeEvent)
    requires trade.feedName != "UNKNOWN"
    ensures TradeRecordAsWritten(trade) != TradeRecordOf(trade)
    ensures TradeRecordAsWritten(trade).symbol != trade.feedName
  {
  }

  /**
   * The cost and high maps after a buy fill of `symbol` at `price`: a first
   * fill records the price as both; a later one keeps the cost and lifts
   * the high to the price when the price is higher.
   */
  function Filled(cost: map<string, real>, high: map<string, real>, symbol: string, price: real)
    : (r: (map<string, real>, map<string, real>))
    requires symbol in cost ==> symbol in high
    ensures r.0.Keys == cost.Keys + {symbol} && r.1.Keys == high.Keys + {symbol}
    ensures forall s :: s in cost ==> r.0[s] == cost[s]
    ensures symbol !in cost ==> r.0[symbol] == price && r.1[symbol] == price
    ensures r.1[symbol] >= price && (symbol in cost ==> r.1[symbol] >= high[symbol])
    ensures forall s :: s in high && s != symbol ==> r.1[s] == high[s]
  {
    if symbol !in cost then (cost[symbol := price], high[symbol := price])
    else (cost, high[symbol := if high[symbol] >= price then high[symbol] else price])
  }

  /** The per-symbol cost and high-water maps and the closed-trade history. */
  class StrategyBook {
    var holdCost: map<string, real>
    var holdHigh: map<string, real>
    var tradeHistory: seq<TradeRecord>

    /** Both maps track the same symbols and the high never sits below the cost. */
    ghost predicate Valid()
      reads this
    {
      holdCost.Keys == holdHigh.Keys &&
      forall s :: s in holdCost ==> holdCost[s] <= holdHigh[s]
    }

    constructor()
      ensures Valid()
      ensures holdCost == map[] && holdHigh == map[] && tradeHistory == []
    {
      holdCost := map[];
      holdHigh := map[];
      tradeHistory := [];
    }

    /**
     * `update_position_cost`: the first fill of a symbol sets its cost and
     * high to the fill price; later fills keep the cost and raise the high
     * to the fill price when it is higher.
     */
    method UpdatePositionCost(symbol: string, price: real)
      requires Valid()
      modifies this
      ensures Valid()
      ensures (holdCost, holdHigh) == Filled(old(holdCost), old(holdHigh), symbol, price)
      ensures tradeHistory == old(tradeHistory)
    {
      if symbol !in holdCost {
        holdCost := holdCost[symbol := price];
        holdHigh := holdHigh[symbol := price];
      } else {
        var high := if holdHigh[symbol] >= price then holdHigh[symbol] else price;
        holdHigh := holdHigh[symbol := high];
      }
    }

    /**
     * `notify_order`: only a completed buy touches the book, updating the
     * cost entry of the symbol derived from its feed.
     */
    method NotifyOrder(order: OrderEvent)
      requires Valid()
      modifies this
      ensures Valid()
      ensures !(order.status == Completed && order.isBuy) ==>
        holdCost == old(holdCost) && holdHigh == old(holdHigh)
      ensures order.status == Completed && order.isBuy ==>
        (holdCost, holdHigh) == Filled(old(holdCost), old(holdHigh), FeedSymbol(order.feedName), order.executedPrice)
      ensures tradeHistory == old(tradeHistory)
    {
      if order.status == Submitted || order.status == Accepted {
        return;
      }
      if order.status == Completed && order.isBuy {
        UpdatePositionCost(FeedSymbol(order.feedName), order.executedPrice);
      }
    }

    /**
     * `notify_trade`: a closed trade appends exactly one record, under the
     * feed's own name (see `TradeRecordAsWritten` for the code as written);
     * an open one changes nothing.
     */
    method NotifyTrade(trade: TradeEvent)
      modifies this
      ensures !trade.isClosed ==> tradeHistory == old(tradeHistory)
      ensures trade.isClosed ==>
        tradeHistory == old(tradeHistory) + [TradeRecordOf(trade)]
      ensures holdCost == old(holdCost) && holdHigh == old(holdHigh)
    {
      if !trade.isClosed {
        return;
      }
      tradeHistory := tradeHistory + [TradeRecordOf(trade)];
    }

    /** `get_stats`, less the broker-derived final value and return. */
    function GetStats(): (s: Stats)
      reads this
      ensures s == TradeStats(tradeHistory)
      ensures s.totalTrades == |tradeHistory| && s.totalPnl == Sum(NetResults(tradeHistory))
      ensures |tradeHistory| > 0 ==> s.winRate * (|tradeHistory| as real) == Wins(tradeHistory) as real
      ensures |tradeHistory| == 0 ==> s.winRate == 0.0
    {
      TradeStats(tradeHistory)
    }

    /** Sets both the cost and the high of a symbol to one price. */
    method Reset(symbol: string, price: real)
      requires Valid()
      modifies this
      ensures Valid()
      ensures holdCost == old(holdCost)[symbol := price] && holdHigh == old(holdHigh)[symbol := price]
      ensures tradeHistory == old(tradeHistory)
    {
      holdCost := holdCost[symbol := price];
      holdHigh := holdHigh[symbol := price];
    }

    /** Drops a symbol from both maps (`del` guarded by `in`). */
    method Forget(symbol: string)
      requires Valid()
      modifies this
      ensures Valid()
      ensures holdCost == old(holdCost) - {symbol} && holdHigh == old(holdHigh) - {symbol}
      ensures tradeHistory == old(tradeHistory)
    {
      if symbol in holdCost {
        holdCost := holdCost - {symbol};
      }
      if symbol in holdHigh {
        holdHigh := holdHigh - {symbol};
      }
    }
  }
}
