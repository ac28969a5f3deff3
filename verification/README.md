# A verified model of the ETF rotation decision engine

The repository trades a pool of exchange-traded funds (ETFs) by momentum
rotation. Each day it measures the market regime from index volatility and
trend, scores every ETF with a filtered momentum-times-quality factor, picks a
style-diversified handful of the best, weights them by score and scales the
book by a regime-dependent exposure. It then guards the open positions with
cost stops, trailing stops and take-profits, and rebalances when weights drift.
Around this engine sit a signal generator, a multi-strategy signal combiner, a
grid-trading strategy, a parameter search, a strategy registry and factory,
configuration getters, a `.env` loader and an ETF configuration generator.

This project models that engine in Dafny, one module per source file:

- `Utils` covers `core/utils.py`: volume ratio, volatility percentile, trend regime, maximum drawdown, Sharpe ratio and score weighting.
- `Risk` (RiskManager.dfy) covers `core/risk_manager.py`: a class whose fields `UpdateMarketRisk` rewrites, and the stop and take-profit checks.
- `Factors` covers `core/factors.py`: the validation mask, the volume and drop filters, and the seven-term quality score.
- `BaseStrategy` covers `core/base_strategy.py`: position weights, the cost and high-water book as a class, trade statistics.
- `EtfSelection`, `QuantEtfRotation` and `BtEtfRotation` cover the two backtrader copies of the rotation strategy. `EtfSelection` holds the target selection they share.
- `JqEtfRotation` covers the JoinQuant script `etf_rotation.py`. Its global object `g` is a class, and the pre-open, open and after-close jobs are methods on it.
- `SignalGenerator`, `BacktestEngine` and `GridTrading` cover signal post-processing and the grid strategy.
- `ParameterSearch`, `StrategyManager`, `StrategyFactory` and `Config` cover the bookkeeping layer.
- `EnvLoader` covers `src/etf_rotation/env_loader.py`.
- `EtfInfo` covers the configuration generator in `test_etf_info.py`.
- `Wrappers`, `Seqs` and `Sorting` are shared helpers:
  - an `Option` type;
  - sums, means and insertion-ordered dictionaries as association lists;
  - the stable descending sort behind Python's `sorted(..., reverse=True)`.

Real numbers are exact. Where the source calls a floating-point library
kernel (`np.std`, `np.polyfit`, `linregress`, `log`, `exp`, `np.sqrt(250)`),
the kernel is a field of the `Utils.Numerics` value passed in. Only the facts
in `Utils.ValidNumerics` are assumed about it: standard deviations are
non-negative, and the square root of 250 is positive. Prices, positions,
account values and the outcome of every data request are inputs. Orders come
back as values.

## Model

| member | source | states |
|---|---|---|
| Utils.VolumeRatio | src/quant_strategies/core/utils.py:11-20 | 1.0 with fewer volumes than the long window, or when the input has no `.rolling` and the bare `except` answers; 1.0 when the long-window mean is not positive; otherwise ratio × long-window mean equals the short-window mean |
| Utils.VolumeRatioBounds | src/quant_strategies/core/utils.py:13-18 | with non-negative volumes the ratio is non-negative and at most long window / short window |
| Utils.VolQuantile | src/quant_strategies/core/utils.py:23-44 | the percentile lies in [0,1] and is 0.5 below 20 returns or with no rolling volatility |
| Utils.VolQuantileMonotone | src/quant_strategies/core/utils.py:36-41 | a higher current volatility never lowers the percentile |
| Utils.VolQuantileExtremes | src/quant_strategies/core/utils.py:36-41 | with enough data the percentile is 1 iff no rolling volatility exceeds the current one, and 0 iff all do |
| Utils.JudgeMarketTrend | src/quant_strategies/core/utils.py:47-67 | high risk iff at least 60 prices, latest below the 60-bar mean and percentile above 0.8; low risk iff latest above the mean and percentile below 0.2 |
| Utils.TrendMidQuantileNeutral | src/quant_strategies/core/utils.py:56-64 | a percentile in [0.2, 0.8] always gives the neutral regime |
| Utils.RunningMax | src/quant_strategies/core/utils.py:74 | the running maximum bounds every earlier element and starts at the first |
| Utils.MinFloatFinite | src/quant_strategies/core/utils.py:76 | `np.min` is finite iff every term is, and then it is a lower bound attained by some term |
| Utils.MaxDrawdownNonPositive | src/quant_strategies/core/utils.py:70-78 | empty input gives 0.0; a finite maximum drawdown is at most 0, bounds every period's drawdown and is attained by one |
| Utils.SharpeRatio | src/quant_strategies/core/utils.py:81-90 | 0.0 for empty returns or a zero standard deviation |
| Utils.SharpeSign | src/quant_strategies/core/utils.py:86-88 | when the formula applies, the ratio is positive iff the annualised mean beats the risk-free rate, and zero iff they are equal |
| Utils.Clip | src/quant_strategies/core/utils.py:96 | same length; negative scores become 0, the others are kept |
| Utils.ScoreBasedWeighting | src/quant_strategies/core/utils.py:93-102 | same length, non-negative weights summing to 1; equal weights 1/n when the clipped scores sum to 0; otherwise a weight is 0 iff its score is not positive |
| Utils.EqualWeights | src/quant_strategies/core/utils.py:99 | n weights of 1/n summing to 1 |
| Utils.Normalise | src/quant_strategies/core/utils.py:101 | each weight times the total gives its clipped score; the weights sum to 1 and are 0 exactly for zero scores |
| Utils.WeightingMonotone | src/quant_strategies/core/utils.py:93-102 | a higher score never gets a lower weight |
| Risk.PositionRatio | src/quant_strategies/core/risk_manager.py:103-108 | 0.5 gross exposure under high risk, 1.0 under low risk, 0.8 when neutral |
| Risk.ThresholdRanges | src/quant_strategies/core/risk_manager.py:95-97 | for a percentile in [0,1] the widened stops lie between the base and twice the base, and the take-profit between 0 and the ratio |
| Risk.StopDecision | src/quant_strategies/core/risk_manager.py:131-147 | the cost stop fires iff the loss ratio is below minus the stop; otherwise the trailing stop fires iff the high is positive and the drop from it is below minus the trailing stop; a zero cost never stops |
| Risk.StopDecisionPriceLevels | src/quant_strategies/core/risk_manager.py:133-141 | in price terms: the cost stop fires iff the price is below cost times (1 - stop), the trailing stop iff it is below high times (1 - trailing stop) |
| Risk.BelowRatioIffBelowLevel | src/quant_strategies/core/risk_manager.py:133-134 | a return ratio below minus a threshold is the same as a price below the reference times (1 - threshold) |
| Risk.StopDecisionMonotone | src/quant_strategies/core/risk_manager.py:134-140 | widening either stop never makes a stop fire that did not fire before |
| Risk.TakeProfitDecision | src/quant_strategies/core/risk_manager.py:161-172 | reduce to half exactly when the profit ratio strictly exceeds the threshold; otherwise keep 1.0; a zero cost never reduces |
| Risk.TakeProfitPriceLevel | src/quant_strategies/core/risk_manager.py:162-164 | with a positive cost, take profit exactly when the price exceeds cost times (1 + threshold) |
| Risk.RiskManager.constructor | src/quant_strategies/core/risk_manager.py:15-30 | the four bases read from the parameters with defaults 0.05, 0.05, 0.10 and 60; dynamic thresholds start at their bases; neutral regime, percentile 0.5, full exposure |
| Risk.RiskManager.UpdateMarketRisk | src/quant_strategies/core/risk_manager.py:32-117 | with at least 20 prices and 20 returns: percentile, widened stops, narrowed take-profit, regime and its exposure; on any failure neutral, 0.8 and 0.5 with the thresholds kept; the percentile stays in [0,1] and exposure matches the regime |
| Risk.RiskManager.CheckStopLoss | src/quant_strategies/core/risk_manager.py:119-147 | sells exactly when a stop reason fires, with the current dynamic thresholds |
| Risk.RiskManager.CheckTakeProfit | src/quant_strategies/core/risk_manager.py:149-172 | the take-profit decision with the current dynamic threshold |
| Risk.RiskManager.GetRiskStatus | src/quant_strategies/core/risk_manager.py:174-183 | a snapshot of the six mutable risk fields |
| Factors.CountValid | src/quant_strategies/core/factors.py:51-52 | the number of valid closes never exceeds the number of bars |
| Factors.Mask | src/quant_strategies/core/factors.py:51-58 | one row per valid bar, and every kept close is positive |
| Factors.MaskAligned | src/quant_strategies/core/factors.py:55-58 | the four masked columns stay aligned: every row is one valid bar's close, high, low and volume, in bar order, and an all-valid input is kept whole |
| Factors.Closes | src/quant_strategies/core/factors.py:41 | the close column, element by element |
| Factors.Volumes | src/quant_strategies/core/factors.py:44 | the volume column, element by element |
| Factors.Momentum | src/quant_strategies/core/factors.py:112-129 | 0.0 whenever some close is not positive |
| Factors.DrawdownScore | src/quant_strategies/core/factors.py:184-185 | NaN exactly for a NaN drawdown; otherwise in [0,1], positive for a finite drawdown and 1 for a zero drawdown |
| Factors.RsrsBeta | src/quant_strategies/core/factors.py:157-167 | each RSRS beta is non-negative and zero exactly when high equals low |
| Factors.RsrsBetas | src/quant_strategies/core/factors.py:155-167 | min(window, 5) betas, taken from the oldest bars of the RSRS window |
| Factors.Rsrs | src/quant_strategies/core/factors.py:168 | the RSRS term is non-negative |
| Factors.VolatilityFactor | src/quant_strategies/core/factors.py:179-180 | in (0, 1], and exactly 1 with no returns |
| Factors.SharpeScore | src/quant_strategies/core/factors.py:188-189 | non-negative, and zero exactly when the Sharpe ratio is not positive |
| Factors.Flag | src/quant_strategies/core/factors.py:152 | 1 exactly when the condition holds, else 0 |
| Factors.Terms | src/quant_strategies/core/factors.py:136-193 | the moving-average flags are 0/1 and the multi-period flag implies the single one; volatility factor in (0,1], drawdown score in [0,1], Sharpe score and RSRS non-negative; a constant slope window gives slope R² 0.0, any other window the supplied R² |
| Factors.Quality | src/quant_strategies/core/factors.py:131-212 | 0.0 with fewer closes than the slope window; 0.0 when the closes reach the slope window but not the RSRS window, the index error the handler catches; otherwise the weighted sum of the terms |
| Factors.QualityBounds | src/quant_strategies/core/factors.py:196-204 | a finite score lies between the slope and RSRS part and that part plus 0.55 plus the Sharpe part |
| Factors.CalculateAllFactors | src/quant_strategies/core/factors.py:35-110 | zero composite below 10 bars or 10 valid bars; a full result exactly when the volume and drop filters both pass; then momentum and quality of the masked data, composite their product, volume ratio 1.0 |
| Factors.VolumeFilterFiresIffThresholdBelowOne | src/quant_strategies/core/factors.py:61-63 | the volume filter fires exactly when its threshold is below 1.0, so never with the default 2.0 |
| Factors.MomentumOnMaskedCloses | src/quant_strategies/core/factors.py:93-117 | after the mask the momentum regression is always consulted |
| Factors.LastDayDropRejects | src/quant_strategies/core/factors.py:66-88 | a last close more than the drop threshold below the previous one rejects the series |
| BaseStrategy.PositionWeight | src/quant_strategies/core/base_strategy.py:97-111 | 0.0 for a symbol with no feed, no long position or a non-positive account value; otherwise weight times account value is the position's value |
| BaseStrategy.PositionWeightBounds | src/quant_strategies/core/base_strategy.py:106-111 | a position worth no more than the account has a weight in [0,1] |
| BaseStrategy.Wins | src/quant_strategies/core/base_strategy.py:190 | there are never more winning trades than trades |
| BaseStrategy.NetResults | src/quant_strategies/core/base_strategy.py:187 | the net result of each recorded trade, in order |
| BaseStrategy.TotalPnlIsSum | src/quant_strategies/core/base_strategy.py:187 | the accumulated total is the sum of the trades' net results |
| BaseStrategy.TradeStats | src/quant_strategies/core/base_strategy.py:185-200 | the trade count is the history length; the total is the sum of the net results; the win rate times the count is the number of winning trades; it lies in [0,1], is 0 with no trades, is 1 iff every trade gained and 0 iff none did |
| BaseStrategy.WinsAll | src/quant_strategies/core/base_strategy.py:190 | every trade is a win exactly when every net result is positive |
| BaseStrategy.WinsNone | src/quant_strategies/core/base_strategy.py:190 | no trade is a win exactly when no net result is positive |
| BaseStrategy.TradeStatsAppend | src/quant_strategies/core/base_strategy.py:178-191 | one more closed trade adds one to the count, its net result to the total, and one win if it gained |
| BaseStrategy.FeedSymbolAsWritten | src/quant_strategies/core/base_strategy.py:152 | as written, the symbol derived from a feed is always the fallback |
| BaseStrategy.FeedSymbol | src/quant_strategies/core/base_strategy.py:152 | the symbol derived from a feed is the feed's name |
| BaseStrategy.FeedSymbolAsWrittenLosesName | src/quant_strategies/core/base_strategy.py:152 | as written, a buy on feed 510300 is booked under UNKNOWN, not under 510300 |
| BaseStrategy.TradeRecordAsWritten | src/quant_strategies/core/base_strategy.py:170-182 | as written, a closed trade is recorded under `UNKNOWN`, with its own gross and net result and date |
| BaseStrategy.TradeRecordOf | src/quant_strategies/core/base_strategy.py:170-182 | the record a closed trade evidently means: its feed's name, gross and net result and date |
| BaseStrategy.TradeRecordAsWrittenLosesName | src/quant_strategies/core/base_strategy.py:170 | as written, a closed trade on any feed not named `UNKNOWN` (such as `510300`) is recorded under another symbol |
| BaseStrategy.StrategyBook.constructor | src/quant_strategies/core/base_strategy.py:33-37 | empty cost and high maps and an empty trade history |
| BaseStrategy.Filled | src/quant_strategies/core/base_strategy.py:124-130 | a fill adds the symbol to both maps; a first fill records the price as cost and high; earlier costs are kept; the high is at least the price and never falls; other highs are kept |
| BaseStrategy.StrategyBook.UpdatePositionCost | src/quant_strategies/core/base_strategy.py:124-130 | the new cost and high maps are exactly those of the fill at the price; the book stays consistent and the history is kept |
| BaseStrategy.StrategyBook.NotifyOrder | src/quant_strategies/core/base_strategy.py:138-163 | a completed buy leaves exactly the maps of a fill of its feed's symbol at the executed price; any other notification leaves the maps alone; the history is kept |
| BaseStrategy.StrategyBook.NotifyTrade | src/quant_strategies/core/base_strategy.py:165-183 | a closed trade appends exactly its record, under the feed's own name where the code as written records `UNKNOWN`; an open one changes nothing; the maps are untouched |
| BaseStrategy.StrategyBook.GetStats | src/quant_strategies/core/base_strategy.py:185-200 | the statistics of the recorded history: its length, the sum of its net results, and a win rate that times the length is the number of winning trades (0 with no trades) |
| BaseStrategy.StrategyBook.Reset | src/etf_rotation/strategy.py:489-490 | cost and high of one symbol both set to the price, all else kept |
| BaseStrategy.StrategyBook.Forget | src/quant_strategies/strategies/etf_rotation.py:428-431 | the symbol leaves both maps, all else kept, and the book stays consistent |
| EtfSelection.Candidates | src/quant_strategies/strategies/etf_rotation.py:264-267 | exactly the entries whose composite strictly exceeds the threshold, never more than the dictionary holds |
| EtfSelection.CandidatesDistinctKeys | src/quant_strategies/strategies/etf_rotation.py:264-267 | filtering a dictionary keeps each symbol at most once |
| EtfSelection.RankedSorted | src/quant_strategies/strategies/etf_rotation.py:275 | the ranking is in descending composite order and is a permutation of the candidates |
| EtfSelection.RankedStable | src/quant_strategies/strategies/etf_rotation.py:275 | candidates with equal composites keep their dictionary order |
| EtfSelection.RankedEntries | src/quant_strategies/strategies/etf_rotation.py:264-275 | every ranked entry is a dictionary entry above the threshold, each symbol once |
| EtfSelection.Cap | src/quant_strategies/strategies/etf_rotation.py:285-286 | the first pass stops at max holdings but always takes at least one symbol, since the stop test follows the append |
| EtfSelection.StyleSetHas | src/quant_strategies/strategies/etf_rotation.py:282-284 | the style of every taken symbol is in the set of included styles |
| EtfSelection.Untaken | src/quant_strategies/strategies/etf_rotation.py:290-291 | the top-up candidates are exactly the ranked symbols the first pass did not take, in rank order |
| EtfSelection.FirstPassFacts | src/quant_strategies/strategies/etf_rotation.py:279-286 | the first pass takes ranked symbols only, each once, at most the cap of them, at least one from a non-empty ranking, and the top two when allowed |
| EtfSelection.FirstPassPrefix | src/quant_strategies/strategies/etf_rotation.py:280-286 | the pass over a prefix of the ranking is a prefix of the pass over the whole ranking |
| EtfSelection.FirstPassTail | src/quant_strategies/strategies/etf_rotation.py:280-286 | whatever the pass takes after a prefix comes from the rest of the ranking |
| EtfSelection.FirstPassSaturated | src/quant_strategies/strategies/etf_rotation.py:285-286 | once the cap is reached, later symbols change nothing |
| EtfSelection.StyleRule | src/quant_strategies/strategies/etf_rotation.py:280-286 | the i-th ranked symbol is taken in the first pass exactly when the pass has not stopped before it and either its style is not yet included or fewer than two symbols are taken |
| EtfSelection.FirstPassDiversifies | src/quant_strategies/strategies/etf_rotation.py:280-284 | after the first two picks, every symbol of the first pass has a style that no earlier pick has |
| EtfSelection.UntakenDistinct | src/quant_strategies/strategies/etf_rotation.py:290-291 | the top-up candidates are distinct |
| EtfSelection.UntakenPrefix | src/quant_strategies/strategies/etf_rotation.py:290-291 | the top-up candidates of a prefix of the ranking are a prefix of those of the whole ranking |
| EtfSelection.UntakenStep | src/quant_strategies/strategies/etf_rotation.py:290-291 | one more ranked symbol adds itself to the top-up candidates exactly when the first pass did not take it |
| EtfSelection.UntakenLength | src/quant_strategies/strategies/etf_rotation.py:290-291 | the top-up candidates number the ranked symbols minus those the first pass took |
| EtfSelection.SelectionFacts | src/quant_strategies/strategies/etf_rotation.py:276-294 | the selection holds ranked symbols only, each once; it has min(cap, ranked) of them, the top one first, and the second-ranked second when two are allowed |
| EtfSelection.SelectionSkipsRepeatedStyle | src/quant_strategies/strategies/etf_rotation.py:280-294 | with max holdings 3 and A, B, C of one style and D of another, the selection is A, B, D |
| EtfSelection.SelectDiversified | src/quant_strategies/strategies/etf_rotation.py:276-294 | the selection is the first pass, then, while fewer than max holdings are taken, the top-up; the result is distinct, min(cap, ranked) long, and led by the top two ranked |
| EtfSelection.StylePass | src/quant_strategies/strategies/etf_rotation.py:279-286 | the loop computes the first pass: a ranked symbol is taken when its style is new or fewer than two are taken, until max holdings are taken |
| EtfSelection.TopUp | src/quant_strategies/strategies/etf_rotation.py:288-294 | the loop appends the untaken ranked symbols in rank order until max holdings are taken: the first pass followed by a Python slice of the untaken symbols |
| EtfSelection.TopUpStep | src/quant_strategies/strategies/etf_rotation.py:290-292 | a ranked symbol is appended by the top-up exactly when the first pass did not take it |
| EtfSelection.TopUpFull | src/quant_strategies/strategies/etf_rotation.py:293-294 | when the top-up reaches max holdings early, what it holds is the first pass plus the first untaken symbols |
| EtfSelection.Dedup | src/quant_strategies/strategies/etf_rotation.py:257-258 | the same symbols, each once, in first-occurrence order; a list without duplicates is unchanged |
| EtfSelection.DefensivePositions | src/quant_strategies/strategies/etf_rotation.py:257-258 | each distinct defensive symbol once, each weighted one over the list length |
| EtfSelection.DefensiveWeightsSumToOne | src/quant_strategies/strategies/etf_rotation.py:257-258 | a non-empty defensive list without duplicates gets weights summing to 1 |
| EtfSelection.ScoresOf | src/quant_strategies/strategies/etf_rotation.py:297 | one composite per selected symbol, in selection order |
| EtfSelection.ScaledPositions | src/quant_strategies/strategies/etf_rotation.py:300-308 | each selected symbol paired with its weight times the exposure, in selection order |
| EtfSelection.RankedSymbolsQualify | src/quant_strategies/strategies/etf_rotation.py:264-275 | ranked symbols are distinct dictionary keys whose composite clears the threshold |
| EtfSelection.WeightedTargets | src/quant_strategies/strategies/etf_rotation.py:297-308 | positions for exactly the selected symbols, each at the score-based weight of its composite times the exposure; they sum to the exposure and are non-negative for a non-negative exposure |
| EtfSelection.ScaledPositionsSum | src/quant_strategies/strategies/etf_rotation.py:306-308 | scaling weights that sum to 1 by the exposure gives positions that sum to it |
| EtfSelection.UnitScaledValues | src/quant_strategies/strategies/etf_rotation.py:306-308 | at full exposure the positions' weights are the score-based weights themselves |
| EtfSelection.ScaledPositionsNonNegative | src/quant_strategies/strategies/etf_rotation.py:306-308 | non-negative weights and exposure give non-negative positions |
| EtfSelection.RankedPositions | src/quant_strategies/strategies/etf_rotation.py:274-308 | the ranked branch is the two-pass selection over the ranking, each target at its score-based weight times the exposure |
| EtfSelection.RankedPositionsFacts | src/quant_strategies/strategies/etf_rotation.py:261-308 | the ranked positions are empty exactly when no composite clears the threshold; otherwise they hold min(cap, candidates) distinct qualifying symbols led by the best one, non-negative and summing to the exposure |
| EtfSelection.SelectedTargets | src/quant_strategies/strategies/etf_rotation.py:274-294 | the selection drawn from the ranking holds qualifying symbols only, each once, min(cap, candidates) of them, led by the best one |
| EtfSelection.GetTargetPositions | src/quant_strategies/strategies/etf_rotation.py:250-313 | the defensive basket when too few positive scores or a high-risk market; otherwise the ranked positions of the two-pass selection weighted by score and scaled by the exposure |
| QuantEtfRotation.SignalFor | src/quant_strategies/strategies/etf_rotation.py:115-135 | buy iff the target exceeds the current weight by more than 0.01, sell iff it is more than 0.01 below, else hold with a zero change; the weights are carried through |
| QuantEtfRotation.SignalChangeBounds | src/quant_strategies/strategies/etf_rotation.py:115-135 | a buy moves the weight up by more than 0.01, a sell down by more than 0.01, and a hold is within 0.01 |
| QuantEtfRotation.GenerateSignals | src/quant_strategies/strategies/etf_rotation.py:108-141 | one signal per target symbol, in target order, against that symbol's current position weight |
| QuantEtfRotation.Drifted | src/quant_strategies/strategies/etf_rotation.py:479-483 | true iff some target symbol's current weight differs from its target by more than the threshold |
| QuantEtfRotation.ShouldRebalance | src/quant_strategies/strategies/etf_rotation.py:470-485 | true iff it is the rebalance weekday or some target has drifted |
| QuantEtfRotation.CheckExitConditions | src/quant_strategies/strategies/etf_rotation.py:338-365 | no exit without a recorded cost, a feed or an open position; a stop exit iff the stop check fires; a half-size reduction iff it does not and the take-profit check does |
| QuantEtfRotation.ExitPriceLevels | src/quant_strategies/strategies/etf_rotation.py:338-365 | for a positive cost: a stop exit iff the price is below the cost stop level or, with a positive high, the trailing level; a reduction iff clear of both and above the take-profit level |
| QuantEtfRotation.ExitOf | src/quant_strategies/strategies/etf_rotation.py:401-420 | a reduction found in the pass always carries ratio 0.5 |
| QuantEtfRotation.StopSells | src/quant_strategies/strategies/etf_rotation.py:414-420 | exactly the symbols of the positions whose exit is a stop |
| QuantEtfRotation.Reductions | src/quant_strategies/strategies/etf_rotation.py:416-418 | exactly the positions whose exit is a take-profit, each at ratio 0.5 |
| QuantEtfRotation.SellsAndReductionsDisjoint | src/quant_strategies/strategies/etf_rotation.py:415-420 | with one position per symbol no symbol is both sold and reduced |
| QuantEtfRotation.WithFeed | src/quant_strategies/strategies/etf_rotation.py:425-426 | exactly the listed symbols that have a feed |
| QuantEtfRotation.ReduceOrders | src/quant_strategies/strategies/etf_rotation.py:433-438 | every reduction order is a target-value order |
| QuantEtfRotation.SellOrders | src/quant_strategies/strategies/etf_rotation.py:424-427 | one zero-percent order per sold symbol with a feed, in order |
| QuantEtfRotation.CollectExits | src/quant_strategies/strategies/etf_rotation.py:396-421 | the scan's sells are the stop exits and its reductions the take-profit exits |
| QuantEtfRotation.SellOrdersStep | src/quant_strategies/strategies/etf_rotation.py:424-431 | selling one more symbol adds its order and its removal exactly when it has a feed |
| QuantEtfRotation.SellAll | src/quant_strategies/strategies/etf_rotation.py:424-431 | the sell orders, and cost and high dropped for exactly the sold symbols that have a feed |
| QuantEtfRotation.ReduceAll | src/quant_strategies/strategies/etf_rotation.py:433-438 | the reduction orders: each reduced symbol with a feed at the account value times its ratio |
| QuantEtfRotation.CheckRiskControls | src/quant_strategies/strategies/etf_rotation.py:396-438 | orders are the stop sells then the reductions; the sold symbols with a feed leave both maps, nothing else changes |
| QuantEtfRotation.CheckRiskControlsRaisesAsWritten | src/quant_strategies/strategies/etf_rotation.py:401-406 | as written, the pass raises exactly when some position is open |
| QuantEtfRotation.OpenPositionRaisesAsWritten | src/quant_strategies/strategies/etf_rotation.py:406 | one open position of 100 shares makes the written pass raise |
| BtEtfRotation.TargetWeights | src/etf_rotation/strategy.py:439-457 | the first max-holdings symbols of the ranking (a Python slice), each once, with non-negative weights summing to 1 and no exposure scaling |
| BtEtfRotation.TargetWeightsScored | src/etf_rotation/strategy.py:451-457 | every target clears the threshold, and the target weights are exactly `score_based_weighting` of the targets' composites, in target order |
| BtEtfRotation.TopRankedQualify | src/etf_rotation/strategy.py:446-453 | the first max-holdings ranked symbols are dictionary keys whose composite clears the threshold |
| BtEtfRotation.TargetWeightsSize | src/etf_rotation/strategy.py:453 | for max holdings at least 0 the targets number min(max holdings, candidates) |
| BtEtfRotation.CurrentWeightsOf | src/etf_rotation/strategy.py:418-437 | empty when the account value is not positive; never more entries than positions |
| BtEtfRotation.CurrentWeightsEntries | src/etf_rotation/strategy.py:424-435 | exactly the open, named positions, each at its value over the account value, each symbol once |
| BtEtfRotation.GetCurrentWeights | src/etf_rotation/strategy.py:418-437 | the loop computes the current weights |
| BtEtfRotation.AnyDrift | src/etf_rotation/strategy.py:287-291 | true iff some currently weighted symbol is more than the threshold from its target, an absent target counting as 0 |
| BtEtfRotation.ShouldRebalanceBt | src/etf_rotation/strategy.py:274-293 | true on the rebalance weekday; otherwise false without factor scores, else true iff a held symbol drifts from the top-N target weights |
| BtEtfRotation.UntargetedDrift | src/etf_rotation/strategy.py:287-291 | a weighted position with no target and a weight above the threshold is a drift |
| BtEtfRotation.UntargetedHoldingForcesRebalance | src/etf_rotation/strategy.py:283-291 | holding a symbol outside the top-N targets above the threshold forces a rebalance |
| BtEtfRotation.SellAndForget | src/etf_rotation/strategy.py:336-343 | an order for each sold symbol with a feed, and cost and high dropped for every sold symbol, feed or not |
| BtEtfRotation.CheckRiskControlsBt | src/etf_rotation/strategy.py:295-351 | orders are the stop sells then the half-account reductions; every stop-sold symbol leaves both maps |
| BtEtfRotation.DropSet | src/etf_rotation/strategy.py:462-477 | exactly the open, named, held symbols that are not targets |
| BtEtfRotation.RebalanceSells | src/etf_rotation/strategy.py:471-472 | every rebalance sell is a zero-percent order for a symbol outside the targets |
| BtEtfRotation.RefreshedEntries | src/etf_rotation/strategy.py:480-490 | the rewritten entries are exactly the targets with a feed and an open position, each at that position's price |
| BtEtfRotation.RebalanceBuys | src/etf_rotation/strategy.py:480-483 | every buy is a target-percent order for a symbol with a feed |
| BtEtfRotation.SellUntargeted | src/etf_rotation/strategy.py:461-477 | the sell orders, and cost and high dropped for exactly the dropped symbols |
| BtEtfRotation.BuyTargets | src/etf_rotation/strategy.py:479-490 | the buy orders, and cost and high set to the position price for exactly the renewed targets |
| BtEtfRotation.RebalancePortfolio | src/etf_rotation/strategy.py:459-490 | sells then buys; the maps lose the dropped symbols and gain the refreshed entries; the book stays consistent |
| BtEtfRotation.RebalanceOutcome | src/etf_rotation/strategy.py:459-490 | after the rebalance no sold symbol keeps a cost, every renewed target's cost is its position price, and every other entry is unchanged |
| JqEtfRotation.EtfListDistinct | etf_rotation.py:29-57 | the ETF universe names each fund once, so the score table is a dictionary |
| JqEtfRotation.EtfListStyled | etf_rotation.py:94-113 | every ETF of the universe has a style entry, so the style lookup during selection never misses |
| JqEtfRotation.MarketVolQuantile | etf_rotation.py:161-181 | the percentile lies in [0, 1]; it is the neutral 0.5 for a failed request, fewer than 20 closes or no rolling volatility, and otherwise the share of rolling volatilities at most the current one |
| JqEtfRotation.MarketTrend | etf_rotation.py:183-203 | a failed index request leaves the market neutral; high risk is only reported above the 0.8 percentile and low risk only below 0.2 |
| JqEtfRotation.Exposure | etf_rotation.py:471-524 | exposure is 0.5 when fewer than seven ETFs score positive or the market is high-risk, 1.0 in a low-risk and 0.8 in a neutral market |
| JqEtfRotation.ScoreTable | etf_rotation.py:228-344 | the table never has more entries than the universe |
| JqEtfRotation.CountPositive | etf_rotation.py:343-344 | the positive count never exceeds the number of recorded entries |
| JqEtfRotation.ScoreEntry | etf_rotation.py:246-341 | an ETF tripping the volume filter or the three-day drop filter (a drop past the threshold on any of the last three days, or a three-day sum below -0.1) is recorded at 0, otherwise at its composite, and skipped when scoring fails |
| JqEtfRotation.ScoreTableStep | etf_rotation.py:228-341 | each ETF of the loop appends its entry when it has one and leaves the table alone otherwise |
| JqEtfRotation.CountPositiveAppend | etf_rotation.py:343-344 | recording one more entry raises the count by one exactly when its score is positive |
| JqEtfRotation.ScoreTableSound | etf_rotation.py:228-341 | every recorded entry is a universe ETF whose data was fetched, with the score the pre-open branch gives it |
| JqEtfRotation.ScoreTableComplete | etf_rotation.py:228-341 | every fetched universe ETF that yields a score is recorded |
| JqEtfRotation.ScoreTableDistinct | etf_rotation.py:228-341 | over a universe without repeats, each ETF is recorded at most once |
| JqEtfRotation.FilteredScoresZero | etf_rotation.py:246-270 | a filtered ETF scores exactly 0, so it is never counted positive nor selected |
| JqEtfRotation.RaisedHighsResult | etf_rotation.py:135-148 | a held symbol with a price gets the larger of its recorded high and the price (the price when none is recorded); every other high is unchanged and no other symbol gains one |
| JqEtfRotation.RaisedHighsMonotone | etf_rotation.py:135-148 | recorded highs never fall and are never dropped by the update |
| JqEtfRotation.GateTargets | etf_rotation.py:397-404 | the drift gate's targets are distinct, at most three, and their weights sum to 1 |
| JqEtfRotation.CurrentWeights | etf_rotation.py:407-408 | each position's weight is its value over the account value, one per position in order |
| JqEtfRotation.DriftingWeights | etf_rotation.py:407-415 | the gate's drift test is the shared "any weight off target by more than the threshold" test, with untargeted holdings at target 0 |
| JqEtfRotation.DriftCheck | etf_rotation.py:394-415 | the gate divides by zero exactly when positions exist and the account value is 0; it passes exactly when some weight drifts past 5% |
| JqEtfRotation.Gate | etf_rotation.py:384-415 | the job stops with no scores exactly when the table is empty; off the rebalance weekday it raises on a division by zero exactly when positions exist and the account value is 0, and stops exactly when no weight drifts; otherwise it trades |
| JqEtfRotation.ExitOf | etf_rotation.py:417-453 | a position is examined only with a cost and a price; the cost stop fires exactly below the cost threshold, the trailing stop exactly otherwise below a positive high's threshold; a take-profit targets half the position value and only above the profit threshold, and a kept position is below it |
| JqEtfRotation.ExitsOutcome | etf_rotation.py:417-453 | the scan sells only held symbols with a cost and a price, orders only held symbols, and leaves the highs of symbols outside the positions untouched |
| JqEtfRotation.StopPrecedesTakeProfit | etf_rotation.py:427-453 | a position past the cost stop is stopped even if it also meets the trailing or take-profit test |
| JqEtfRotation.Untargeted | etf_rotation.py:569-577 | the symbols sold are exactly the held ones outside the targets |
| JqEtfRotation.BuyAmount | etf_rotation.py:595 | the amount is a whole number of 100-share lots, the largest whose cost stays within the target value |
| JqEtfRotation.AverageCost | etf_rotation.py:609-618 | the averaged cost lies between the old cost and the buy price |
| JqEtfRotation.NewCost | etf_rotation.py:609-618 | a new holding's cost is its buy price, and costs stay positive |
| JqEtfRotation.BuysOutcome | etf_rotation.py:579-619 | every buy order is a positive whole number of lots, recorded costs stay positive, and only targets gain a cost or a high |
| JqEtfRotation.DefensiveEtfsDistinct | etf_rotation.py:123 | the defensive basket names each fund once |
| JqEtfRotation.DiversifiedTargets | etf_rotation.py:486-522 | the targets are the shared two-pass selection over the ranking, so a later pick never repeats a style unless fewer than two are taken, and the untaken ranked ETFs top it up in rank order; they are distinct, qualifying, min(3, ranked) of them, led by the top two; the weights are `score_based_weighting` of their composites, or equal without a previous day, non-negative and summing to 1 |
| JqEtfRotation.WeighTargets | etf_rotation.py:508-522 | the weights are exactly `score_based_weighting` of the targets' composites, or equal without a previous day; either way non-negative and summing to 1 |
| JqEtfRotation.PlanTargets | etf_rotation.py:465-567 | the plan is the regime's plan: the defensive basket at equal weights exactly when fewer than seven ETFs score positive or the market is high-risk; otherwise the two-pass selection over the ranking, min(3, ranked) distinct qualifying ETFs led by the top two, empty exactly when none qualifies, weighted by `score_based_weighting` of their composites or equally without a previous day; weights non-negative and summing to 1 |
| JqEtfRotation.PlanOfFacts | etf_rotation.py:465-567 | the plan is defensive exactly in the defensive regime and then holds the defensive basket; otherwise it is empty exactly when no ETF qualifies; every target is eligible (defensive, or qualifying outside the defensive regime) |
| JqEtfRotation.ZeroOrders | etf_rotation.py:455-457 | one zero target-value order per symbol, in order |
| JqEtfRotation.StopSalesFacts | etf_rotation.py:417-462 | the stop sales place only target-value orders on held symbols, add no cost, and leave unheld symbols' costs and highs as they were |
| JqEtfRotation.TradeBookFacts | etf_rotation.py:569-619 | the trading step places zero targets and positive whole-lot buys, and a symbol keeps or gains a cost only if it was costed and not held, or is a target |
| JqEtfRotation.RebalanceCleared | etf_rotation.py:478-486 | with no qualifying ETF outside the defensive regime, the rebalance is the stop sales followed by a zero target for every holding, each dropped from the costs and highs |
| JqEtfRotation.RebalanceTraded | etf_rotation.py:569-619 | otherwise the rebalance is the stop sales followed by the trading step at the regime's exposure |
| JqEtfRotation.RebalanceBookFacts | etf_rotation.py:417-621 | after clearing, every order is a zero target and the costs and highs are exactly those of unheld symbols that had one; after trading, orders are targets or whole-lot buys, and a cost belongs to an unheld symbol that had one or to a symbol the regime may hold |
| JqEtfRotation.Globals.constructor | etf_rotation.py:12-133 | the regime starts neutral at the median percentile with the base stop and profit levels, full exposure, and empty score, cost and high tables |
| JqEtfRotation.Globals.UpdateHoldHigh | etf_rotation.py:135-148 | the highs become the raised highs of the held symbols; nothing else changes |
| JqEtfRotation.Globals.BeforeMarketOpen | etf_rotation.py:205-351 | the regime's percentile, widened stops, narrowed take-profit and trend are recomputed; the score table is rebuilt (empty without a previous day) with its positive count; costs, highs and exposure are kept |
| JqEtfRotation.Globals.ScanExits | etf_rotation.py:417-453 | the scan's sells, orders and new highs are those of the exit specification over the positions in order; the regime and costs are kept |
| JqEtfRotation.Globals.Forget | etf_rotation.py:456-462 | a sold symbol loses its cost and high; nothing else changes |
| JqEtfRotation.Globals.Liquidate | etf_rotation.py:478-486 | every listed symbol is ordered to zero value and loses its cost and high |
| JqEtfRotation.Globals.BuyTargets | etf_rotation.py:579-619 | the orders, costs and highs are those of the buy specification at a budget of account value times exposure |
| JqEtfRotation.Globals.MarketOpen | etf_rotation.py:384-621 | with no scores, a division by zero in the drift gate, or no drift off the rebalance day, the job places no order and changes nothing; otherwise the exposure is that of the regime, the orders, costs and highs are exactly those of the rebalance specification (exits, then clearing or untargeted sells, then buys), and the book is cleared exactly when no ETF qualifies outside the defensive regime |
| JqEtfRotation.Globals.Rebalance | etf_rotation.py:417-621 | the regime is kept, the exposure is the regime's, and the orders, costs and highs are exactly those of the rebalance specification: the stop sales, then either a zero target for every holding or the untargeted sales and the buys; the book is cleared exactly when no ETF qualifies outside the defensive regime |
| JqEtfRotation.Globals.FollowPlan | etf_rotation.py:464-621 | after the stop sales, the orders, costs and highs are those of the rebalance specification, the exposure is the regime's, and the book is cleared exactly when no ETF qualifies outside the defensive regime |
| JqEtfRotation.Globals.SetExposure | etf_rotation.py:470-524 | the exposure becomes that of the regime; the regime, costs and highs are kept |
| JqEtfRotation.Globals.ClearAll | etf_rotation.py:478-486 | after the stop sales, zero targets for every holding give exactly the clearing branch of the rebalance specification |
| JqEtfRotation.Globals.TradePlan | etf_rotation.py:569-619 | after the stop sales, the untargeted sales and buys of the plan give exactly the trading branch of the rebalance specification |
| JqEtfRotation.Globals.ApplyExits | etf_rotation.py:417-462 | the orders, costs and highs are exactly the stop sales: take-profit orders, then a zero target for each stopped holding, whose cost and high are dropped; orders touch held symbols only, no cost is added, and symbols outside the positions keep their cost and high |
| JqEtfRotation.Globals.Trade | etf_rotation.py:569-619 | the orders, costs and highs are exactly the trading specification: zero targets for the untargeted holdings first, whose costs and highs are dropped, then the buys against the account value times the exposure; buys are whole lots, and any cost afterwards belongs to a target or to an untouched former symbol |
| JqEtfRotation.Globals.SetRegime | etf_rotation.py:208-219 | the tables are cleared and the percentile, dynamic levels and trend are those of the index data |
| JqEtfRotation.Globals.ScoreEtfs | etf_rotation.py:228-344 | the score table and its positive count are those of the universe's fetched data; the regime and the books are kept |
| SignalGenerator.SignalOf | src/quant_strategies/core/signal_generator.py:61-81 | a signal keeps the symbol and the strategy's reason, defaults the action to hold, takes the magnitude of the weight change as its strength and the target weight as its score |
| SignalGenerator.TableSignals | src/quant_strategies/core/signal_generator.py:61-83 | one strategy's table yields one signal per entry, in table order |
| SignalGenerator.ExtractedStrengths | src/quant_strategies/core/signal_generator.py:64 | every generated signal has a non-negative strength |
| SignalGenerator.ExtractedSkips | src/quant_strategies/core/signal_generator.py:58-59 | a strategy without a signals table contributes no signal |
| SignalGenerator.Kept | src/quant_strategies/core/signal_generator.py:97-120 | the filter never adds signals |
| SignalGenerator.KeptAppend | src/quant_strategies/core/signal_generator.py:101-118 | the filter works signal by signal, preserving order |
| SignalGenerator.KeptExactly | src/quant_strategies/core/signal_generator.py:101-118 | a signal survives exactly when it is not a hold, has strength at least 0.01, and at least 0.02 if it is a buy |
| SignalGenerator.FilterSignals | src/quant_strategies/core/signal_generator.py:97-120 | the filter loop returns exactly the surviving signals in their order |
| SignalGenerator.RankSortsSignals | src/quant_strategies/core/signal_generator.py:122-131 | the ranking is a permutation of its input in descending (score, strength) order |
| SignalGenerator.RankStable | src/quant_strategies/core/signal_generator.py:125-129 | signals with equal (score, strength) keep their relative order |
| SignalGenerator.WithAction | src/quant_strategies/core/signal_generator.py:133-139 | the buy or sell list holds only signals of that action, from the input, and all of them |
| SignalGenerator.WithActionAppend | src/quant_strategies/core/signal_generator.py:133-139 | the action filter preserves order |
| SignalGenerator.BuySellCounts | src/quant_strategies/core/signal_generator.py:160-161 | buys and sells together never outnumber the list, and make it up exactly when every action is buy or sell |
| SignalGenerator.Strengths | src/quant_strategies/core/signal_generator.py:187 | the strengths list matches the signals one for one |
| SignalGenerator.Scores | src/quant_strategies/core/signal_generator.py:191 | the scores list matches the signals one for one |
| SignalGenerator.SignalQuality | src/quant_strategies/core/signal_generator.py:180-210 | the quality of an empty list is 0 and never exceeds 1 |
| SignalGenerator.QualityNonNegative | src/quant_strategies/core/signal_generator.py:185-210 | with non-negative strengths and scores and a deviation at most 1, the quality lies in [0, 1] |
| SignalGenerator.MeanNonNegative | src/quant_strategies/core/signal_generator.py:188-192 | the mean of non-negative values is non-negative |
| SignalGenerator.EvaluateSignals | src/quant_strategies/core/signal_generator.py:141-178 | an empty list evaluates to all zeros without top lists; otherwise the counts are the list's length and its buys and sells; the averages are the means of the strengths and of the scores; the quality is the signal quality, at most 1; the top lists are the first min(5, count) buys and sells in order |
| SignalGenerator.EvaluationAveragesNonNegative | src/quant_strategies/core/signal_generator.py:163-164 | with non-negative strengths and scores, both averages of the summary are non-negative |
| SignalGenerator.Generator.constructor | src/quant_strategies/core/signal_generator.py:33-41 | the history starts empty |
| SignalGenerator.Generator.GenerateSignals | src/quant_strategies/core/signal_generator.py:43-95 | the result is the ranked, filtered signals of all strategies' tables, and it is appended to the history |
| SignalGenerator.ExtractSignals | src/quant_strategies/core/signal_generator.py:55-83 | the nested loops build exactly the flattened signal list, strategy by strategy |
| SignalGenerator.TableToSignals | src/quant_strategies/core/signal_generator.py:61-83 | the inner loop builds one strategy's signals in table order |
| SignalGenerator.ExtractedStep | src/quant_strategies/core/signal_generator.py:57-83 | each strategy appends its table's signals, or nothing without a table |
| SignalGenerator.GeneratedSignalsQualify | src/quant_strategies/core/signal_generator.py:85-87 | a signal is returned exactly when it was generated and passes the filter, so every returned strength is at least 0.01 |
| BacktestEngine.WeightOf | src/quant_strategies/core/backtest_engine.py:233-242 | each strategy's weight is the magnitude of its weight change |
| BacktestEngine.TotalWeight | src/quant_strategies/core/backtest_engine.py:242 | the total weight is non-negative |
| BacktestEngine.ActionFor | src/quant_strategies/core/backtest_engine.py:249-255 | a buy exactly above 0.01, a sell exactly below -0.01, a hold in between |
| BacktestEngine.CombinedOf | src/quant_strategies/core/backtest_engine.py:214-262 | no opinions merge to a zero hold; otherwise the strength is the total weight and the count the number of opinions; the action follows the score, which is 0 without weight |
| BacktestEngine.CombinedScoreAverages | src/quant_strategies/core/backtest_engine.py:244-245 | with some weight, the score times the total weight is the signed weighted total |
| BacktestEngine.CalculateCombinedSignal | src/quant_strategies/core/backtest_engine.py:214-262 | the accumulation loop computes the merged signal |
| BacktestEngine.ScoreWithinWeight | src/quant_strategies/core/backtest_engine.py:231-242 | with target weights in [-1, 1] the signed total never exceeds the total weight in magnitude |
| BacktestEngine.ContributionWithinWeight | src/quant_strategies/core/backtest_engine.py:235-240 | one opinion's signed contribution is bounded by its weight |
| BacktestEngine.CombinedScoreBounded | src/quant_strategies/core/backtest_engine.py:244-247 | the merged score is a weighted average, so target weights in [-1, 1] keep it in [-1, 1] |
| BacktestEngine.HoldsScoreNothing | src/quant_strategies/core/backtest_engine.py:235-242 | opinions that are neither buys nor sells add weight but no score, so they merge to a hold |
| BacktestEngine.ItemsForNamed | src/quant_strategies/core/backtest_engine.py:186-205 | a symbol has at least one opinion exactly when some strategy's table names it |
| BacktestEngine.CombineSignals | src/quant_strategies/core/backtest_engine.py:186-212 | one merged signal for every symbol any strategy names, and none for other symbols |
| BacktestEngine.CombineSymbol | src/quant_strategies/core/backtest_engine.py:195-207 | a named symbol's merged signal combines its opinions and counts at least one strategy |
| BacktestEngine.CollectSymbols | src/quant_strategies/core/backtest_engine.py:186-191 | the first loop collects exactly the union of the tables' keys |
| BacktestEngine.AllSymbolsStep | src/quant_strategies/core/backtest_engine.py:188-191 | each strategy adds its table's keys, or nothing without a table |
| BacktestEngine.CollectItems | src/quant_strategies/core/backtest_engine.py:196-203 | the inner loop gathers one opinion per strategy naming the symbol, in strategy order |
| GridTrading.Linspace | src/quant_strategies/strategies/grid_trading.py:86 | n evenly spaced points, the i-th at lo plus i steps of (hi − lo)/(n − 1), a single point being lo |
| GridTrading.LinspaceEnds | src/quant_strategies/strategies/grid_trading.py:82-86 | the ladder runs from price·(1 − range) to price·(1 + range) inclusive |
| GridTrading.LinspaceSteps | src/quant_strategies/strategies/grid_trading.py:86 | consecutive levels are one constant step apart |
| GridTrading.LinspaceAscending | src/quant_strategies/strategies/grid_trading.py:86 | the levels ascend when the range is non-negative |
| GridTrading.GridLevels | src/quant_strategies/strategies/grid_trading.py:80-86 | a grid has exactly grid_count levels |
| GridTrading.NearLevelPriceNonZero | src/quant_strategies/strategies/grid_trading.py:112-119 | a level can only be near a non-zero price, so the signal strength's division is defined |
| GridTrading.BuySignal | src/quant_strategies/strategies/grid_trading.py:114-120 | a buy at a level targets the position cap and has strength equal to the level's distance relative to the price |
| GridTrading.BuySignals | src/quant_strategies/strategies/grid_trading.py:108-120 | every signalled level is near the price and carries that level's buy signal |
| GridTrading.BuySignalsKeys | src/quant_strategies/strategies/grid_trading.py:108-120 | a level has a signal exactly when one of its entries is near the price with room under the cap |
| GridTrading.BuySignalsStep | src/quant_strategies/strategies/grid_trading.py:108-120 | each grid entry either sets its level's buy signal or leaves the signals alone |
| GridTrading.EmptyGridBuysNearLevels | src/quant_strategies/strategies/grid_trading.py:108-120 | with every grid position empty and a positive cap, exactly the grid's levels near the price buy |
| GridTrading.ShouldRebalance | src/quant_strategies/strategies/grid_trading.py:151-168 | due after rebalance_interval bars or without a centre; a zero centre divides by zero; otherwise due exactly when the price is more than 20% from a positive centre, never for a negative one |
| GridTrading.DeviationScale | src/quant_strategies/strategies/grid_trading.py:162-165 | the relative deviation test compares the absolute deviation with 20% of a positive centre |
| GridTrading.GridStrategy.constructor | src/quant_strategies/strategies/grid_trading.py:42-92 | the strategy starts with no price history and last rebalance at bar 0; with data the grid centres on the latest close and lays out one empty position per level, otherwise it is empty |
| GridTrading.GridStrategy.RebalanceGrid | src/quant_strategies/strategies/grid_trading.py:170-187 | the grid re-centres on the price at the current bar; the per-level positions and price history are kept |
| GridTrading.GridStrategy.GenerateSignals | src/quant_strategies/strategies/grid_trading.py:94-149 | the price is recorded; the grid re-centres exactly when due and raises exactly on a zero centre; the signals are the buys at levels near the price and no symbol gets a weight |
| GridTrading.LayOut | src/quant_strategies/strategies/grid_trading.py:88-90 | the initial positions hold every level once, each at 0 |
| GridTrading.LevelSignals | src/quant_strategies/strategies/grid_trading.py:108-130 | the loop over the grid positions yields exactly the buy signals (the sell branch needs a filled position) |
| GridTrading.SymbolWeights | src/quant_strategies/strategies/grid_trading.py:132-143 | with every grid position empty no symbol passes the 0.01 weight floor |
| GridTrading.SumAbsPositions | src/quant_strategies/strategies/grid_trading.py:135-137 | the summed absolute position of an empty grid is 0 |
| GridTrading.Diff | src/quant_strategies/strategies/grid_trading.py:221 | each difference is the next price minus this one |
| GridTrading.Gains | src/quant_strategies/strategies/grid_trading.py:222 | gains are the positive differences, 0 elsewhere |
| GridTrading.Losses | src/quant_strategies/strategies/grid_trading.py:223 | losses are the negated negative differences, 0 elsewhere |
| GridTrading.Rsi | src/quant_strategies/strategies/grid_trading.py:216-233 | a series shorter than window + 1 has RSI 50 |
| GridTrading.RsiOf | src/quant_strategies/strategies/grid_trading.py:228-233 | the RSI is 100 with no average loss and otherwise lies in [0, 100) |
| GridTrading.WindowMean | src/quant_strategies/strategies/grid_trading.py:225-226 | the mean of a window of non-negative values is non-negative |
| GridTrading.RsiRange | src/quant_strategies/strategies/grid_trading.py:216-233 | the RSI is 100 exactly when the window has no loss, and otherwise lies in [0, 100) |
| GridTrading.SeqMin | src/quant_strategies/strategies/grid_trading.py:240 | the lowest level is a level and no level is lower |
| GridTrading.SeqMax | src/quant_strategies/strategies/grid_trading.py:241 | the highest level is a level and no level is higher |
| GridTrading.GridPosition | src/quant_strategies/strategies/grid_trading.py:235-247 | the position lies in [0, 1]; 0.5 without levels or with one distinct level; 0 at or below the lowest level and 1 at or above the highest |
| GridTrading.GridPositionMonotone | src/quant_strategies/strategies/grid_trading.py:246-247 | a higher price never sits lower in the grid |
| GridTrading.CheckExit | src/quant_strategies/strategies/grid_trading.py:249-280 | no exit without a feed or a long position; a zero cost divides by zero; take-profit exactly at or above the profit threshold, stop-loss exactly otherwise at or below the negated loss threshold |
| GridTrading.TakeProfitFirst | src/quant_strategies/strategies/grid_trading.py:264-278 | a move past both thresholds is reported as a take-profit |
| ParameterSearch.Signed | src/quant_strategies/managers/parameter_search.py:66-68 | a minimising search records the negated objective, a maximising one the objective itself |
| ParameterSearch.BestOf | src/quant_strategies/managers/parameter_search.py:79-82 | a best pair exists exactly when some result was recorded |
| ParameterSearch.BestIsFirstMaximum | src/quant_strategies/managers/parameter_search.py:77-82 | the tracked best score is the maximum of the recorded scores, attained by a result with the tracked parameters, and no earlier result reaches it |
| ParameterSearch.BestOfAppend | src/quant_strategies/managers/parameter_search.py:77-82 | recording a result replaces the best exactly when there was none or its score is strictly greater |
| ParameterSearch.Recorded | src/quant_strategies/managers/parameter_search.py:63-93 | the recorded results all carry a finite score and its metric, at most one per combination |
| ParameterSearch.RecordedStep | src/quant_strategies/managers/parameter_search.py:63-93 | a combination whose objective raises records nothing; one that returns records its signed score |
| ParameterSearch.RecordedAll | src/quant_strategies/managers/parameter_search.py:199-203 | when the objective never raises, every combination is recorded once, in order |
| ParameterSearch.RecordedEmpty | src/quant_strategies/managers/parameter_search.py:63-93 | nothing is recorded exactly when the objective raises for every combination |
| ParameterSearch.Prepend | src/quant_strategies/managers/parameter_search.py:181 | a value put in front of every tuple, one for one |
| ParameterSearch.SpreadLength | src/quant_strategies/managers/parameter_search.py:181 | spreading n values over m tuples yields n·m tuples |
| ParameterSearch.ProductCount | src/quant_strategies/managers/parameter_search.py:173-181 | the grid has exactly the product of the value-list lengths, the count the search announces |
| ParameterSearch.SpreadMember | src/quant_strategies/managers/parameter_search.py:181 | a spread tuple is one of the values followed by one of the tuples, and every such pair occurs |
| ParameterSearch.ProductMember | src/quant_strategies/managers/parameter_search.py:181 | the grid holds exactly the tuples taking each position from that parameter's values |
| ParameterSearch.SpreadDistinct | src/quant_strategies/managers/parameter_search.py:181 | spreading distinct values over distinct tuples repeats nothing |
| ParameterSearch.ProductDistinct | src/quant_strategies/managers/parameter_search.py:181 | with duplicate-free value lists no combination is enumerated twice |
| ParameterSearch.Zip | src/quant_strategies/managers/parameter_search.py:202 | the combination pairs each parameter name with its value, in order |
| ParameterSearch.ValueLists | src/quant_strategies/managers/parameter_search.py:171 | the value lists follow the parameter space in order |
| ParameterSearch.GridSize | src/quant_strategies/managers/parameter_search.py:170-181 | the grid's parameter dictionaries number the product of the value-list lengths |
| ParameterSearch.EmptyAxisRecordsNothing | src/quant_strategies/managers/parameter_search.py:170-206 | a parameter with no values gives an empty grid, so nothing is recorded and the search reaches the best-score print with no score |
| ParameterSearch.ValueDistance | src/quant_strategies/managers/parameter_search.py:409-414 | a value distance is non-negative and 0 for equal values; between non-numbers it is 0 exactly for equal values and 1 otherwise |
| ParameterSearch.SharedDistances | src/quant_strategies/managers/parameter_search.py:406-414 | one distance per key of the first dictionary, at most |
| ParameterSearch.CalculateDistance | src/quant_strategies/managers/parameter_search.py:401-416 | the loop computes the distance of the two combinations |
| ParameterSearch.SharedDistancesNone | src/quant_strategies/managers/parameter_search.py:407-408 | no distance is collected exactly when the dictionaries share no key |
| ParameterSearch.SharedDistancesNonNegative | src/quant_strategies/managers/parameter_search.py:409-414 | every collected distance is non-negative |
| ParameterSearch.DistanceCases | src/quant_strategies/managers/parameter_search.py:401-416 | the distance is infinite exactly when a side is empty or no key is shared, and otherwise non-negative |
| ParameterSearch.SelfDistance | src/quant_strategies/managers/parameter_search.py:401-416 | a non-empty combination is at distance 0 from itself |
| ParameterSearch.Searcher.constructor | src/quant_strategies/managers/parameter_search.py:31-50 | a search starts with no results and no best |
| ParameterSearch.Searcher.EvaluateParams | src/quant_strategies/managers/parameter_search.py:63-93 | a raising objective yields a −inf result and changes nothing; a returning one appends its signed result, and the best stays the first maximum of the recorded scores |
| ParameterSearch.Searcher.GridSearch | src/quant_strategies/managers/parameter_search.py:160-213 | the serial grid search records the results of every grid combination in product order after the earlier ones; with no recorded score at all, formatting the missing best score raises, and otherwise it reports the best parameters and score of all results together with the results |
| ParameterSearch.Searcher.EvaluateAll | src/quant_strategies/managers/parameter_search.py:199-203 | the serial loop records the results of the combinations in order |
| ParameterSearch.Searcher.SelectNextParams | src/quant_strategies/managers/parameter_search.py:358-381 | nothing before two results exist; otherwise the first candidate with the highest UCB score |
| ParameterSearch.GridSearchBest | src/quant_strategies/managers/parameter_search.py:205-213 | the returned best score bounds every recorded score and belongs to a result with the returned parameters |
| ParameterSearch.Lower | src/quant_strategies/managers/parameter_search.py:437 | lower-casing maps each ASCII capital to its small letter and keeps every other character |
| ParameterSearch.LowerIdempotent | src/quant_strategies/managers/parameter_search.py:437 | lower-casing twice changes nothing more |
| ParameterSearch.CreateParameterSearch | src/quant_strategies/managers/parameter_search.py:419-446 | a missing objective or space raises; otherwise grid, random or Bayesian exactly when the lower-cased type names it, and an unknown type raises |
| ParameterSearch.CreateIgnoresCase | src/quant_strategies/managers/parameter_search.py:437-446 | the dispatch does not depend on the case of the type name |
| Sorting.SortDescSorted | src/quant_strategies/strategies/etf_rotation.py:275 | the descending sort returns a permutation of its input in non-increasing key order |
| Sorting.SortDescStable | src/quant_strategies/core/signal_generator.py:125-129 | elements with equal keys keep their input order, as Python's stable sort does under reverse=True |
| Config.GetOr | src/quant_strategies/core/config.py:40 | a missing key gives the default, a present key its value |
| Config.Set | src/quant_strategies/managers/strategy_factory.py:96-97 | after the assignment the key holds the value, every other key keeps its lookup, and the key set gains only that key |
| Config.UpdateGet | src/quant_strategies/managers/strategy_factory.py:92-93 | after an update a key holds the override's value when the override names it, and its old value otherwise |
| Config.ValueGet | src/quant_strategies/core/config.py:45 | only a table answers a lookup; any other value raises |
| Config.GetSection | src/quant_strategies/core/config.py:38-90 | a missing section defaults to an empty list for the ETF and defensive lists and to an empty table otherwise; a present one is returned as loaded |
| Config.GetBenchmarkSymbol | src/quant_strategies/core/config.py:43-45 | the symbol defaults to 000300.SH when the benchmark table or its symbol is missing, and the lookup raises exactly when the benchmark entry is not a table |
| Config.GetStrategyConfig | src/quant_strategies/core/config.py:93-96 | the named strategy's table, an empty table when absent; it raises exactly when the strategies section is not a table |
| Config.GetStrategyParams | src/quant_strategies/core/config.py:99-102 | the lookup succeeds exactly when the strategy lookup does and yields a table; then it is that table's `params` entry, or an empty table when absent, so a strategy without an entry has empty params |
| Config.IsStrategyEnabled | src/quant_strategies/core/config.py:105-108 | the lookup succeeds exactly when the strategy lookup does and yields a table; then it is that table's `enabled` entry, or false when absent, so a strategy without an entry is disabled |
| Config.EnabledEntries | src/quant_strategies/core/config.py:114 | the comprehension keeps exactly the table-valued entries whose enabled flag is true, and raises exactly when some entry is not a table |
| Config.GetEnabledStrategies | src/quant_strategies/core/config.py:111-114 | a strategies section that is not a table raises |
| Config.EnabledAgrees | src/quant_strategies/core/config.py:105-114 | a strategy is listed as enabled exactly when its enabled lookup returns a true value |
| StrategyFactory.MergeConfig | src/quant_strategies/managers/strategy_factory.py:75-99 | the merge raises exactly when the strategy lookup fails, the entry is not a table, or a true override is not a table; a merged table always has params |
| StrategyFactory.MergeConfigGet | src/quant_strategies/managers/strategy_factory.py:88-99 | an override key wins, every other configured key keeps its value, and params is the empty table if nobody set it |
| StrategyFactory.Factory.constructor | src/quant_strategies/managers/strategy_factory.py:19-36 | the default registration's import fails, so the registry starts empty |
| StrategyFactory.Factory.RegisterStrategy | src/quant_strategies/managers/strategy_factory.py:38-45 | registering binds the name to the class, replacing an earlier binding |
| StrategyFactory.Factory.Creation | src/quant_strategies/managers/strategy_factory.py:47-73 | an unregistered name creates nothing; a created instance has the registered class and the merged table; creation raises exactly when the merge raises; a registered name whose merge succeeds is created, with that class and table, exactly when the constructor does not fail |
| StrategyFactory.Factory.CreateStrategy | src/quant_strategies/managers/strategy_factory.py:47-73 | the method returns the outcome the creation rules give |
| StrategyFactory.Factory.BatchCreateStrategies | src/quant_strategies/managers/strategy_factory.py:134-151 | the loop keeps, in order, the names whose creation returned an instance, stopping at a creation that raises |
| StrategyFactory.Factory.BatchStopsAtRaise | src/quant_strategies/managers/strategy_factory.py:146-147 | once one creation raises the whole batch raises |
| StrategyFactory.Factory.BatchRaisesOnlyAtRaise | src/quant_strategies/managers/strategy_factory.py:146-147 | a batch raises only when some creation in it raises |
| StrategyFactory.Factory.BatchKeepsCreated | src/quant_strategies/managers/strategy_factory.py:146-149 | every kept entry is a requested name whose creation returned that instance |
| StrategyFactory.Factory.BatchKeepsAllCreated | src/quant_strategies/managers/strategy_factory.py:146-149 | every requested name whose creation returns an instance is kept with it |
| StrategyManager.OrEmpty | src/quant_strategies/managers/strategy_manager.py:85 | a missing or empty configuration is stored as the empty table, any other as given |
| StrategyManager.Manager.constructor | src/quant_strategies/managers/strategy_manager.py:27-65 | the manager starts with the two default strategies registered and enabled, described and configured from their entries, and no instances or statistics |
| StrategyManager.Manager.RegisterStrategy | src/quant_strategies/managers/strategy_manager.py:67-88 | registering writes the class and an enabled registration for the name and touches nothing else |
| StrategyManager.Manager.UnregisterStrategy | src/quant_strategies/managers/strategy_manager.py:90-99 | a registered name leaves all four dictionaries; an unknown name changes nothing |
| StrategyManager.Manager.GetStrategy | src/quant_strategies/managers/strategy_manager.py:101-103 | the lookup finds exactly the registered names, with their registration |
| StrategyManager.Manager.ListStrategies | src/quant_strategies/managers/strategy_manager.py:105-117 | the listing holds every registration, or with the filter exactly the enabled ones |
| StrategyManager.Manager.EnableStrategy | src/quant_strategies/managers/strategy_manager.py:119-122 | only a registered name's flag is set, nothing else changes |
| StrategyManager.Manager.DisableStrategy | src/quant_strategies/managers/strategy_manager.py:124-127 | only a registered name's flag is cleared, nothing else changes |
| StrategyManager.Manager.RunSingleStrategy | src/quant_strategies/managers/strategy_manager.py:178-298 | an unknown name yields the error result and changes nothing; otherwise the backtest runs on the registered configuration updated by the override, and its statistics are stored under the name |
| StrategyManager.Manager.RunMultipleStrategies | src/quant_strategies/managers/strategy_manager.py:300-337 | the results are the runs of the requested names that are registered and enabled, and they replace those names' stored statistics |
| StrategyManager.Manager.RunRequest | src/quant_strategies/managers/strategy_manager.py:321-335 | a request runs exactly when its name is registered and enabled, and stores the run's statistics |
| StrategyManager.RunsOf | src/quant_strategies/managers/strategy_manager.py:318-337 | only registered names have results |
| StrategyManager.RunsOfStep | src/quant_strategies/managers/strategy_manager.py:320-335 | each request adds its run when the name is registered and enabled, and nothing otherwise |
| StrategyManager.RunsOfExactly | src/quant_strategies/managers/strategy_manager.py:320-337 | exactly the requested names that are registered and enabled are run, each with its own override applied |
| StrategyManager.RunsOfRequested | src/quant_strategies/managers/strategy_manager.py:320-337 | a name no request mentions never has a result |
| StrategyManager.AgreeRemove | src/quant_strategies/managers/strategy_manager.py:92-99 | removing a name from all four dictionaries keeps them in agreement |
| EnvLoader.LeadCount | src/etf_rotation/env_loader.py:35-39 | the leading run counted is exactly the characters to strip at the front |
| EnvLoader.TrailCount | src/etf_rotation/env_loader.py:35-39 | the trailing run counted is exactly the characters to strip at the back |
| EnvLoader.Strip | src/etf_rotation/env_loader.py:36-39 | stripping leaves a contiguous part of the text that neither starts nor ends with a stripped character, removing only stripped characters |
| EnvLoader.StripIdempotent | src/etf_rotation/env_loader.py:36-39 | stripping twice removes nothing more |
| EnvLoader.FindFirst | src/etf_rotation/env_loader.py:35 | the split finds the first separator, and none exactly when the line has none |
| EnvLoader.ParseLineSkips | src/etf_rotation/env_loader.py:28-32 | a line is skipped exactly when, once trimmed, it is blank, a comment or has no equals sign |
| EnvLoader.ParseLineKey | src/etf_rotation/env_loader.py:35-36 | a loaded key holds no equals sign and does not start or end with whitespace |
| EnvLoader.ParseLineValue | src/etf_rotation/env_loader.py:37-38 | a loaded value does not start or end with a quote mark |
| EnvLoader.StripKeepsOut | src/etf_rotation/env_loader.py:36-38 | stripping adds no character |
| EnvLoader.ParseLineSplit | src/etf_rotation/env_loader.py:35-39 | a line splits at its first equals sign into the trimmed key and the trimmed, unquoted value |
| EnvLoader.FindFirstAt | src/etf_rotation/env_loader.py:35 | the first occurrence is the one with none before it |
| EnvLoader.LoadEnv | src/etf_rotation/env_loader.py:11-41 | a missing file loads nothing; otherwise the dictionary of the file's lines |
| EnvLoader.EnvOfFrom | src/etf_rotation/env_loader.py:28-39 | a key is loaded only from a line that parses to it |
| EnvLoader.EnvOfLast | src/etf_rotation/env_loader.py:28-39 | the value loaded for a key is the one on the last line naming it |
| EnvLoader.GetEnv | src/etf_rotation/env_loader.py:44-68 | a value in the process environment wins even when empty, then the file's value, then the default |
| EnvLoader.GetTushareToken | src/etf_rotation/env_loader.py:71-86 | a non-empty environment token wins, then the file's token, otherwise none |
| EnvLoader.TokenIsGetEnv | src/etf_rotation/env_loader.py:58-86 | the token lookup agrees with the general lookup except for an empty environment value, which it skips |
| EtfInfo.FilterByDate | test_etf_info.py:120-143 | the rows kept are exactly those within both inclusive bounds, and no bound keeps everything |
| EtfInfo.BoundsInclusive | test_etf_info.py:136-142 | a row listed on the bound itself is kept |
| EtfInfo.FilterByDateSingle | test_etf_info.py:136-143 | a single row is kept exactly when it is within the bounds |
| EtfInfo.FilterByDateAppend | test_etf_info.py:136-143 | filtering a concatenation is the concatenation of the filtered parts, so the kept rows keep their order and multiplicity |
| EtfInfo.OccursHasIndex | test_etf_info.py:276-283 | a keyword found in a name occurs at some position of it |
| EtfInfo.IndexOccurs | test_etf_info.py:276-283 | a keyword at any position of a name is found |
| EtfInfo.Classify | test_etf_info.py:269-283 | the style is that of the first keyword list with a keyword in the name: commodity, overseas, A-share, tech, else other |
| EtfInfo.EntryOf | test_etf_info.py:269-273 | an entry carries the row's code and name and the classified style |
| EtfInfo.Entries | test_etf_info.py:265-285 | one entry per row, in table order |
| EtfInfo.Grouped | test_etf_info.py:256-262 | the file lists exactly five categories |
| EtfInfo.Symbols | test_etf_info.py:305 | the symbols of the entries, one for one |
| EtfInfo.Defensive | test_etf_info.py:305 | the defensive list is the symbols of the first three commodity entries, or of all of them when fewer |
| EtfInfo.GenerateConfigToml | test_etf_info.py:241-317 | nothing is generated exactly when no ETF was listed by 2019-12-31; otherwise the pool groups exactly those ETFs by style and the defensive list comes from their commodity category |
| EtfInfo.OfStyleStep | test_etf_info.py:285 | appending an entry grows the list of its own style and no other |
| EtfInfo.OfStyleMembers | test_etf_info.py:285 | an entry is in a style's list exactly when it is one of the entries and has that style |
| EtfInfo.OfStyleAppend | test_etf_info.py:285 | an entry added to its style's list adds exactly one copy of it |
| EtfInfo.MembersFrom | test_etf_info.py:265-285 | every entry of a category comes from a row classified with that style |
| EtfInfo.OfStyleCount | test_etf_info.py:256-285 | a category list holds each entry of its style as many times as the whole list does, and no entry of another style |
| EtfInfo.StylePartition | test_etf_info.py:256-285 | the five category lists together hold each entry exactly once |
| EtfInfo.PoolIsPermutation | test_etf_info.py:308-316 | the file's ETF pool is a rearrangement of the ETFs listed by the cutoff, none lost or repeated |

## Left out

- Market-data requests (Tushare, JoinQuant `get_price`, `fund_nav`, index data) are not modelled: they are network I/O. Their results are inputs, and a failed request is `None`.
- Order execution, the broker and backtrader's `Cerebro`, analyzers and feeds are not modelled: they are framework code. Orders are returned as values; prices, position sizes and account values are inputs.
- Floating-point numerics are not modelled. Momentum, slope times R², annualised volatility and the Sharpe ratio come from the `Numerics` kernels, and only properties that hold for every kernel value are proved. Rounding is not modelled.
- NaN and infinity appear only where the source's branches depend on them: a non-finite close is `None` in the factor mask, and the maximum drawdown uses an extended real. Elsewhere values are exact reals.
- `simplified_epo_optimization` (utils.py and the script) is not modelled: it rests on a pandas covariance and is not on the main path.
- Logging, `print`, `log.info` and timestamps (`datetime.now()` in signals, histories and search results) are dropped.
- JqEtfRotation.Globals.MarketOpen: the positions, account value and prices are one snapshot taken when the job starts; fills of the job's own earlier orders within the same job are not reflected.
- The script's scheduling (`run_daily`, `handle_data`, `after_trading_end`) is not modelled: the jobs are methods the caller invokes in order.
- JqEtfRotation.Globals.BeforeMarketOpen: the per-ETF factor arithmetic arrives as a computed composite (`None` when the kernels raise). Only the volume and drop filters are modelled.
- QuantEtfRotation: `_calculate_factors`, `_execute_trading` and `next` are not modelled. Factor scores are an input, and `_execute_trading` relies on the same undefined attribute reported under Findings.
- `src/etf_rotation/factors.py`, `risk_manager.py` and `utils.py` are not part of this model. The copies under `src/quant_strategies/core` stand in for them.
- Utils.VolumeRatio: requires 1 ≤ short window ≤ long window. The source is only called with 5 and 20; other windows, where pandas would raise or return NaN, are not modelled.
- Factors.CalculateAllFactors: requires window parameters of at least 1 and a short volume window no longer than the long one (`Factors.ValidParams`). The constructor defaults meet this; other parameter values are not modelled.
- BaseStrategy: the feed set is taken as given, and `data_dict` is not modelled. As written, its keys come from the same `getattr` fallback (base_strategy.py:41), so each feed is keyed `UNKNOWN_<i>`. The fallback is modelled at the order and trade notifications, as written and corrected (see "## Findings").
- BaseStrategy.StrategyBook.GetStats: `final_value` and `total_return` are left out: they read the broker.
- StrategyManager.Manager.constructor: requires the `etf_rotation` and `grid_trading` entries, when present, to be tables. Otherwise the source raises `AttributeError` while registering, which is not modelled.
- StrategyManager: `create_strategy`, `generate_signals` and the report helpers are not modelled: they build framework objects. The backtest a run performs is a function parameter, and its statistics are an opaque `Json` value.
- StrategyManager and StrategyFactory registries are `map`s, so the insertion order of `list_strategies` is not kept.
- StrategyFactory.Factory.BatchCreateStrategies: every created instance counts as true in the `if instance:` test. The truthiness of a framework object is not part of this model.
- ParameterSearch: these are not modelled:
  - the thread-pool path of the grid search: it is concurrency;
  - random search, the random candidate sampling of the Bayesian search and the UCB formula: randomness. The candidates and the UCB score are inputs to `SelectNextParams`;
  - JSON saving and the results data frame: file I/O.
- ParameterSearch: an objective returning NaN or infinity is not modelled; the objective returns a real or raises.
- ParameterSearch.Lower: ASCII only. Python's `str.lower` also maps non-ASCII capitals, which no search type name contains.
- ParameterSearch: a Python `bool` parameter value is a number (`Num`), as `isinstance(True, int)` holds.
- GridTrading: `calculate_indicators`, `_get_historical_data`, `_execute_trading` (with its `min_volume` filter) and `_log_grid_status` are not modelled: they read feeds, place orders or log. The parameter override via `setattr` arrives as the given `GridParams`.
- EnvLoader: the default file path and the file encoding are not modelled. The file is given as its lines, and `str.isspace` as a fixed character set.
- EtfInfo: listing dates are `yyyymmdd` integers, and an unparseable date is `None`. The TOML text itself is not generated, only the defensive list and the category lists written into it. The fetch, sort and report methods are not modelled: they are I/O.

## Findings

| source | as written | input that shows it | evidently intended | confidence | as-written member | corrected member |
|---|---|---|---|---|---|---|
| src/quant_strategies/core/base_strategy.py:152 | `getattr(order.data._name, 'name', 'UNKNOWN')` reads a `name` attribute of the feed's name, a string, so it always yields the fallback | a completed buy on the feed named `510300` is booked under `UNKNOWN` | book the fill under the feed's own name | not executed | BaseStrategy.FeedSymbolAsWritten, BaseStrategy.FeedSymbolAsWrittenLosesName | BaseStrategy.FeedSymbol |
| src/quant_strategies/core/base_strategy.py:170 | `notify_trade` derives the symbol with the same `getattr(trade.data._name, 'name', 'UNKNOWN')`, so every closed trade is recorded under the fallback | a closed trade on the feed named `510300` is recorded under `UNKNOWN` | record the trade under the feed's own name | not executed | BaseStrategy.TradeRecordAsWritten, BaseStrategy.TradeRecordAsWrittenLosesName | BaseStrategy.TradeRecordOf, BaseStrategy.StrategyBook.NotifyTrade |
| src/quant_strategies/strategies/etf_rotation.py:406 | the risk-control pass looks up `self.data_to_symbol`, which no code defines, so it raises `AttributeError` | one open position of 100 shares | map each position's feed to its symbol and run the exit checks | not executed | QuantEtfRotation.CheckRiskControlsRaisesAsWritten, QuantEtfRotation.OpenPositionRaisesAsWritten | QuantEtfRotation.CheckRiskControls |
