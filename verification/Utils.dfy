/**
 * Helpers of `core/utils.py`: volume ratio, market volatility percentile,
 * trend regime, maximum drawdown, Sharpe ratio and score-proportional weights.
 */
module Utils {
  import opened Seqs

  /**
   * The floating-point library routines the source delegates to (`np.std`,
   * `np.polyfit`/`linregress`, `np.sqrt(250)`), passed in as values.  Only the
   * facts in `ValidNumerics` are assumed of them.
   */
  datatype Numerics = Numerics(
    popStd: seq<real> -> real,       // np.std (ddof = 0)
    sqrt250: real,                   // np.sqrt(250)
    momentum: seq<real> -> real,     // annualised log-price regression momentum
    slopeR2: seq<real> -> real)      // regression slope times R squared

  ghost predicate ValidNumerics(nums: Numerics)
  {
    nums.sqrt250 > 0.0 && forall s :: nums.popStd(s) >= 0.0
  }

  /** The market regime produced by `judge_market_trend`. */
  datatype Trend = HighRisk | LowRisk | Neutral

  // ---------------------------------------------------------------------------
  // calculate_volume_ratio
  // ---------------------------------------------------------------------------

  /**
   * Short-window mean volume over long-window mean volume.  `hasRolling` is
   * false when the caller passes a NumPy array: it has no `.rolling`, the bare
   * `except` catches the AttributeError and the result is 1.0.
   */
  function VolumeRatio(volumes: seq<real>, shortWindow: nat, longWindow: nat, hasRolling: bool): (r: real)
    requires 1 <= shortWindow <= longWindow
    ensures |volumes| < longWindow || !hasRolling ==> r == 1.0
    ensures |volumes| >= longWindow && hasRolling && Mean(TakeLast(volumes, longWindow)) <= 0.0 ==> r == 1.0
    ensures |volumes| >= longWindow && hasRolling && Mean(TakeLast(volumes, longWindow)) > 0.0 ==>
      r * Mean(TakeLast(volumes, longWindow)) == Mean(TakeLast(volumes, shortWindow))
  {
    if |volumes| < longWindow then 1.0
    else if !hasRolling then 1.0
    else
      var maShort := Mean(TakeLast(volumes, shortWindow));
      var maLong := Mean(TakeLast(volumes, longWindow));
      if maLong > 0.0 then maShort / maLong else 1.0
  }

  lemma {:induction false} SuffixSumAtMost(s: seq<real>, k: nat)
    requires forall i :: 0 <= i < |s| ==> s[i] >= 0.0
    requires k <= |s|
    ensures Sum(s[|s| - k..]) <= Sum(s)
  {
    assert s == s[..|s| - k] + s[|s| - k..];
    SumAppend(s[..|s| - k], s[|s| - k..]);
    SumNonNegative(s[..|s| - k]);
  }

  /**
   * With non-negative volumes the ratio is non-negative, and it is at most
   * longWindow / shortWindow: the short window's volume is part of the long one's.
   */
  lemma VolumeRatioBounds(volumes: seq<real>, shortWindow: nat, longWindow: nat, hasRolling: bool)
    requires 1 <= shortWindow <= longWindow
    requires forall i :: 0 <= i < |volumes| ==> volumes[i] >= 0.0
    ensures 0.0 <= VolumeRatio(volumes, shortWindow, longWindow, hasRolling)
    ensures VolumeRatio(volumes, shortWindow, longWindow, hasRolling) * (shortWindow as real) <= longWindow as real
  {
    if |volumes| >= longWindow && hasRolling {
      var sh := TakeLast(volumes, shortWindow);
      var lg := TakeLast(volumes, longWindow);
      assert |sh| == shortWindow && |lg| == longWindow;
      if Mean(lg) > 0.0 {
        var ss, sl := Sum(sh), Sum(lg);
        assert Mean(sh) == ss / (shortWindow as real);
        assert Mean(lg) == sl / (longWindow as real);
        assert sl > 0.0;
        assert sh == lg[|lg| - shortWindow..];
        SuffixSumAtMost(lg, shortWindow);
        SumNonNegative(sh);
        RatioOfMeansBound(ss, sl, shortWindow as real, longWindow as real);
      }
    }
  }

  lemma RatioOfMeansBound(ss: real, sl: real, s: real, l: real)
    requires 0.0 <= ss <= sl && 0.0 < sl && 0.0 < s && 0.0 < l
    ensures (ss / s) / (sl / l) >= 0.0
    ensures (ss / s) / (sl / l) * s <= l
  {
    var x := (ss / s) / (sl / l);
    assert x * (sl / l) == ss / s;
    assert x * s * sl == ss * l;
    assert x * s == ss * l / sl;
    assert ss * l <= sl * l;
  }

  // ---------------------------------------------------------------------------
  // calculate_market_vol_quantile
  // ---------------------------------------------------------------------------

  /**
   * Share of the rolling 20-day annualised volatilities that do not exceed the
   * current annualised volatility; 0.5 when there are fewer than 20 returns or
   * no rolling value.  The volatilities are inputs (they need `std` and a
   * square root).
   */
  function VolQuantile(returnCount: nat, currentVol: real, rollingVols: seq<real>): (q: real)
    ensures 0.0 <= q <= 1.0
    ensures returnCount < 20 || |rollingVols| == 0 ==> q == 0.5
  {
    if returnCount < 20 then 0.5
    else if |rollingVols| == 0 then 0.5
    else (CountAtMost(rollingVols, currentVol) as real) / (|rollingVols| as real)
  }

  lemma {:induction false} CountAtMostMonotone(s: seq<real>, x: real, y: real)
    requires x <= y
    ensures CountAtMost(s, x) <= CountAtMost(s, y)
    decreases |s|
  {
    if |s| > 0 {
      CountAtMostMonotone(s[..|s| - 1], x, y);
    }
  }

  lemma {:induction false} CountAtMostAll(s: seq<real>, x: real)
    ensures CountAtMost(s, x) == |s| <==> forall i :: 0 <= i < |s| ==> s[i] <= x
    ensures CountAtMost(s, x) == 0 <==> forall i :: 0 <= i < |s| ==> s[i] > x
    decreases |s|
  {
    if |s| > 0 {
      CountAtMostAll(s[..|s| - 1], x);
      assert forall i :: 0 <= i < |s| - 1 ==> s[..|s| - 1][i] == s[i];
    }
  }

  /** A higher current volatility never gives a lower percentile. */
  lemma VolQuantileMonotone(returnCount: nat, v1: real, v2: real, rollingVols: seq<real>)
    requires v1 <= v2
    ensures VolQuantile(returnCount, v1, rollingVols) <= VolQuantile(returnCount, v2, rollingVols)
  {
    if returnCount >= 20 && |rollingVols| > 0 {
      CountAtMostMonotone(rollingVols, v1, v2);
      DivideMonotone(CountAtMost(rollingVols, v1) as real, CountAtMost(rollingVols, v2) as real, |rollingVols| as real);
    }
  }

  lemma DivideMonotone(a: real, b: real, d: real)
    requires a <= b && d > 0.0
    ensures a / d <= b / d
  {
  }

  /**
   * With enough data the percentile is 1 exactly when no rolling volatility
   * exceeds the current one, and 0 exactly when all of them do.
   */
  lemma VolQuantileExtremes(returnCount: nat, currentVol: real, rollingVols: seq<real>)
    requires returnCount >= 20 && |rollingVols| > 0
    ensures VolQuantile(returnCount, currentVol, rollingVols) == 1.0
        <==> forall i :: 0 <= i < |rollingVols| ==> rollingVols[i] <= currentVol
    ensures VolQuantile(returnCount, currentVol, rollingVols) == 0.0
        <==> forall i :: 0 <= i < |rollingVols| ==> rollingVols[i] > currentVol
  {
    CountAtMostAll(rollingVols, currentVol);
  }

  // ---------------------------------------------------------------------------
  // judge_market_trend
  // ---------------------------------------------------------------------------

  /** High risk below the 60-bar mean in a volatile market, low risk above it in a calm one. */
  function JudgeMarketTrend(prices: seq<real>, volQuantile: real): (t: Trend)
    ensures t == HighRisk <==>
      |prices| >= 60 && prices[|prices| - 1] < Mean(TakeLast(prices, 60)) && volQuantile > 0.8
    ensures t == LowRisk <==>
      |prices| >= 60 && prices[|prices| - 1] > Mean(TakeLast(prices, 60)) && volQuantile < 0.2
  {
    if |prices| < 60 then Neutral
    else
      var ma60 := Mean(TakeLast(prices, 60));
      var latest := prices[|prices| - 1];
      if latest < ma60 && volQuantile > 0.8 then HighRisk
      else if latest > ma60 && volQuantile < 0.2 then LowRisk
      else Neutral
  }

  /** A percentile between 0.2 and 0.8 always gives the neutral regime. */
  lemma TrendMidQuantileNeutral(prices: seq<real>, volQuantile: real)
    requires 0.2 <= volQuantile <= 0.8
    ensures JudgeMarketTrend(prices, volQuantile) == Neutral
  {
  }

  // ---------------------------------------------------------------------------
  // calculate_max_drawdown
  // ---------------------------------------------------------------------------

  /** A NumPy float result: finite, minus infinity, or not a number. */
  datatype Float = Finite(v: real) | NegInf | NaN

  /** The `1e-8` guard added to the running peak. */
  const DrawdownEps: real := 0.00000001

  /** `np.cumprod(1 + returns)`: growth of one unit after each period. */
  function Growth(rets: seq<real>): (g: seq<real>)
    ensures |g| == |rets|
    decreases |rets|
  {
    if |rets| == 0 then []
    else
      var prev := Growth(rets[..|rets| - 1]);
      var base := if |prev| == 0 then 1.0 else prev[|prev| - 1];
      prev + [base * (1.0 + rets[|rets| - 1])]
  }

  /** `np.maximum.accumulate`: the running maximum. */
  function RunningMax(s: seq<real>): (m: seq<real>)
    ensures |m| == |s|
    ensures forall i :: 0 <= i < |s| ==> m[i] >= s[i]
    ensures forall i, j :: 0 <= j <= i < |s| ==> m[i] >= s[j]
    ensures |s| > 0 ==> m[0] == s[0]
    decreases |s|
  {
    if |s| == 0 then []
    else if |s| == 1 then [s[0]]
    else
      var prev := RunningMax(s[..|s| - 1]);
      var top := prev[|prev| - 1];
      prev + [if s[|s| - 1] > top then s[|s| - 1] else top]
  }

  /** `(cum - peak) / (peak + 1e-8)` with NumPy's division by zero. */
  function DrawdownTerm(cum: real, peak: real): Float
  {
    if peak + DrawdownEps == 0.0 then (if cum == peak then NaN else NegInf)
    else Finite((cum - peak) / (peak + DrawdownEps))
  }

  function DrawdownTerms(rets: seq<real>): (d: seq<Float>)
    ensures |d| == |rets|
  {
    var cum := seq(|rets|, i requires 0 <= i < |rets| => Growth(rets)[i] - 1.0);
    var peak := RunningMax(cum);
    seq(|rets|, i requires 0 <= i < |rets| => DrawdownTerm(cum[i], peak[i]))
  }

  /** `np.min`, which propagates NaN; the empty case is handled by the caller. */
  function MinFloat(d: seq<Float>): (m: Float)
    requires |d| > 0
    decreases |d|
  {
    if |d| == 1 then d[0]
    else
      var a := MinFloat(d[..|d| - 1]);
      var b := d[|d| - 1];
      if a.NaN? || b.NaN? then NaN
      else if a.NegInf? || b.NegInf? then NegInf
      else Finite(if a.v <= b.v then a.v else b.v)
  }

  lemma {:induction false} MinFloatFinite(d: seq<Float>)
    requires |d| > 0
    ensures MinFloat(d).Finite? <==> forall i :: 0 <= i < |d| ==> d[i].Finite?
    ensures MinFloat(d).Finite? ==> forall i :: 0 <= i < |d| ==> MinFloat(d).v <= d[i].v
    ensures MinFloat(d).Finite? ==> exists i :: 0 <= i < |d| && d[i] == MinFloat(d)
    decreases |d|
  {
    if |d| > 1 {
      var init := d[..|d| - 1];
      MinFloatFinite(init);
      assert forall i :: 0 <= i < |init| ==> init[i] == d[i];
      if MinFloat(d).Finite? && MinFloat(init).Finite? {
        var i :| 0 <= i < |init| && init[i] == MinFloat(init);
        assert d[i] == MinFloat(init);
      }
    }
  }

  /** `calculate_max_drawdown`: the empty input makes `np.min` raise and the `except` returns 0.0. */
  function MaxDrawdown(rets: seq<real>): Float
  {
    if |rets| == 0 then Finite(0.0) else MinFloat(DrawdownTerms(rets))
  }

  /**
   * A finite maximum drawdown is never positive, since the first term compares
   * the first cumulative return with itself, and it is attained by some period
   * and bounds every period's drawdown.
   */
  lemma MaxDrawdownNonPositive(rets: seq<real>)
    ensures |rets| == 0 ==> MaxDrawdown(rets) == Finite(0.0)
    ensures MaxDrawdown(rets).Finite? ==> MaxDrawdown(rets).v <= 0.0
    ensures MaxDrawdown(rets).Finite? && |rets| > 0 ==>
      (forall i :: 0 <= i < |rets| ==>
         DrawdownTerms(rets)[i].Finite? && MaxDrawdown(rets).v <= DrawdownTerms(rets)[i].v)
      && exists i :: 0 <= i < |rets| && DrawdownTerms(rets)[i] == MaxDrawdown(rets)
  {
    if |rets| > 0 {
      var d := DrawdownTerms(rets);
      MinFloatFinite(d);
      var cum := seq(|rets|, i requires 0 <= i < |rets| => Growth(rets)[i] - 1.0);
      assert RunningMax(cum)[0] == cum[0];
      assert d[0] == DrawdownTerm(cum[0], cum[0]);
    }
  }

  // ---------------------------------------------------------------------------
  // calculate_sharpe_ratio
  // ---------------------------------------------------------------------------

  /** Annualised excess mean over annualised population standard deviation. */
  function SharpeRatio(rets: seq<real>, riskFreeRate: real, nums: Numerics): (r: real)
    requires ValidNumerics(nums)
    ensures |rets| == 0 || nums.popStd(rets) == 0.0 ==> r == 0.0
  {
    if |rets| == 0 || nums.popStd(rets) == 0.0 then 0.0
    else (Mean(rets) * 250.0 - riskFreeRate) / (nums.popStd(rets) * nums.sqrt250)
  }

  /** When defined by the formula, the ratio is positive exactly when the annualised mean beats the risk-free rate. */
  lemma SharpeSign(rets: seq<real>, riskFreeRate: real, nums: Numerics)
    requires ValidNumerics(nums)
    requires |rets| > 0 && nums.popStd(rets) != 0.0
    ensures SharpeRatio(rets, riskFreeRate, nums) > 0.0 <==> Mean(rets) * 250.0 > riskFreeRate
    ensures SharpeRatio(rets, riskFreeRate, nums) == 0.0 <==> Mean(rets) * 250.0 == riskFreeRate
  {
    var den := nums.popStd(rets) * nums.sqrt250;
    assert den > 0.0;
  }

  // ---------------------------------------------------------------------------
  // score_based_weighting
  // ---------------------------------------------------------------------------

  /** `np.clip(scores, a_min=0)`. */
  function Clip(scores: seq<real>): (c: seq<real>)
    ensures |c| == |scores|
    ensures forall i :: 0 <= i < |c| ==> c[i] >= 0.0 && c[i] >= scores[i]
    ensures forall i :: 0 <= i < |c| ==> scores[i] >= 0.0 ==> c[i] == scores[i]
    ensures forall i :: 0 <= i < |c| ==> scores[i] < 0.0 ==> c[i] == 0.0
  {
    seq(|scores|, i requires 0 <= i < |scores| => if scores[i] < 0.0 then 0.0 else scores[i])
  }

  /**
   * Weights proportional to the clipped scores, or equal weights when every
   * clipped score is zero.  The result is a distribution over the entries:
   * non-negative, summing to 1, zero exactly for entries whose clipped score
   * is zero (when some score is positive).
   */
  function ScoreBasedWeighting(scores: seq<real>): (w: seq<real>)
    ensures |w| == |scores|
    ensures forall i :: 0 <= i < |w| ==> w[i] >= 0.0
    ensures |scores| > 0 ==> Sum(w) == 1.0
    ensures Sum(Clip(scores)) == 0.0 ==> forall i :: 0 <= i < |w| ==> w[i] == 1.0 / (|w| as real)
    ensures Sum(Clip(scores)) != 0.0 ==>
      forall i :: 0 <= i < |w| ==> (w[i] == 0.0 <==> scores[i] <= 0.0)
  {
    var c := Clip(scores);
    SumNonNegative(c);
    if Sum(c) == 0.0 then EqualWeights(|c|) else Normalise(c, Sum(c))
  }

  /** `np.ones(n) / n`. */
  function EqualWeights(n: nat): (w: seq<real>)
    ensures |w| == n
    ensures forall i :: 0 <= i < n ==> w[i] == 1.0 / (n as real)
    ensures n > 0 ==> Sum(w) == 1.0
  {
    var w := seq(n, i requires 0 <= i < n => 1.0 / (n as real));
    assert n > 0 ==> Sum(w) == 1.0 by {
      if n > 0 {
        SumConstant(w, 1.0 / (n as real));
      }
    }
    w
  }

  /** `c / total` for non-negative `c` whose sum is `total > 0`. */
  function Normalise(c: seq<real>, total: real): (w: seq<real>)
    requires forall i :: 0 <= i < |c| ==> c[i] >= 0.0
    requires total == Sum(c) && total > 0.0
    ensures |w| == |c|
    ensures forall i :: 0 <= i < |c| ==> w[i] >= 0.0 && (w[i] == 0.0 <==> c[i] == 0.0)
    ensures forall i :: 0 <= i < |c| ==> w[i] * total == c[i]
    ensures Sum(w) == 1.0
  {
    var w := seq(|c|, i requires 0 <= i < |c| => c[i] / total);
    SumScaled(c, w, 1.0 / total);
    w
  }

  /** Weighting preserves the order of the scores. */
  lemma WeightingMonotone(scores: seq<real>, i: nat, j: nat)
    requires i < |scores| && j < |scores|
    requires scores[i] >= scores[j]
    ensures ScoreBasedWeighting(scores)[i] >= ScoreBasedWeighting(scores)[j]
  {
    var c := Clip(scores);
    SumNonNegative(c);
    var total := Sum(c);
    if total != 0.0 {
      assert c[i] >= c[j];
      NormaliseMonotone(c, total, i, j);
    }
  }

  lemma NormaliseMonotone(c: seq<real>, total: real, i: nat, j: nat)
    requires forall k :: 0 <= k < |c| ==> c[k] >= 0.0
    requires total == Sum(c) && total > 0.0
    requires i < |c| && j < |c| && c[i] >= c[j]
    ensures Normalise(c, total)[i] >= Normalise(c, total)[j]
  {
    var w := Normalise(c, total);
    CancelPositiveFactor(w[i], w[j], c[i], c[j], total);
  }

  lemma CancelPositiveFactor(a: real, b: real, x: real, y: real, t: real)
    requires t > 0.0 && a * t == x && b * t == y && x >= y
    ensures a >= b
  {
    var d := a - b;
    assert d * t == x - y;
    assert d * t >= 0.0;
  }
}
