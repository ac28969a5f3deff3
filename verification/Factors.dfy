/**
 * `core/factors.py`: the validation and filter pipeline of
 * `FactorCalculator.calculate_all_factors` and the seven-term quality score.
 * Momentum and slope-times-R-squared come from the regression kernels in
 * `Numerics`; everything else is exact arithmetic.
 */
module Factors {
  import opened Wrappers
  import opened Seqs
  import opened Utils

  /** One bar of the input frame; a close of None is NaN or infinite. */
  datatype Bar = Bar(close: Option<real>, high: real, low: real, volume: real)

  /** A bar that passed the validity mask. */
  datatype Row = Row(close: real, high: real, low: real, volume: real)

  datatype FactorParams = FactorParams(
    momentumWindow: nat, slopeWindow: nat, maWindow: nat, rsrsWindow: nat,
    volatilityWindow: nat, volumeShortWindow: nat, volumeLongWindow: nat,
    dropThreshold: real, volumeFilterThreshold: real)

  /** The constructor's defaults. */
  const DefaultParams := FactorParams(25, 20, 20, 20, 20, 5, 20, 0.05, 2.0)

  predicate ValidParams(p: FactorParams)
  {
    p.slopeWindow >= 1 && p.maWindow >= 1 && p.rsrsWindow >= 1 && p.volatilityWindow >= 1
    && 1 <= p.volumeShortWindow <= p.volumeLongWindow
  }

  /** What `calculate_all_factors` returns: `{'composite': 0.0}` or the full dictionary. */
  datatype FactorResult =
    | ZeroComposite
    | Scored(momentum: real, quality: Float, composite: Float, volRatio: real)

  function Composite(r: FactorResult): Float
  {
    if r.ZeroComposite? then Finite(0.0) else r.composite
  }

  // ---------------------------------------------------------------------------
  // Validity mask
  // ---------------------------------------------------------------------------

  /** `close > 0 & ~isnan(close) & ~isinf(close)`. */
  predicate ValidBar(b: Bar)
  {
    b.close.Some? && b.close.value > 0.0
  }

  function RowOf(b: Bar): Row
    requires ValidBar(b)
  {
    Row(b.close.value, b.high, b.low, b.volume)
  }

  function CountValid(bars: seq<Bar>): (n: nat)
    ensures n <= |bars|
  {
    if |bars| == 0 then 0 else CountValid(bars[..|bars| - 1]) + (if ValidBar(bars[|bars| - 1]) then 1 else 0)
  }

  /** The mask applied to all four columns at once, keeping bar order. */
  function Mask(bars: seq<Bar>): (rows: seq<Row>)
    ensures |rows| == CountValid(bars)
    ensures forall j :: 0 <= j < |rows| ==> rows[j].close > 0.0
  {
    if |bars| == 0 then []
    else Mask(bars[..|bars| - 1]) + (if ValidBar(bars[|bars| - 1]) then [RowOf(bars[|bars| - 1])] else [])
  }

  /**
   * Alignment of the masked columns: every masked row is one valid input bar,
   * close, high, low and volume together, and the rows keep the bars' order.
   */
  lemma {:induction false} MaskAligned(bars: seq<Bar>)
    ensures forall j :: 0 <= j < |Mask(bars)| ==>
      exists i :: 0 <= i < |bars| && ValidBar(bars[i]) && Mask(bars)[j] == RowOf(bars[i])
    ensures (forall i :: 0 <= i < |bars| ==> ValidBar(bars[i])) ==>
      Mask(bars) == seq(|bars|, i requires 0 <= i < |bars| && ValidBar(bars[i]) => RowOf(bars[i]))
  {
    if |bars| > 0 {
      var init := bars[..|bars| - 1];
      var last := bars[|bars| - 1];
      MaskAligned(init);
      assert Mask(bars) == Mask(init) + (if ValidBar(last) then [RowOf(last)] else []);
      forall j | 0 <= j < |Mask(bars)|
        ensures exists i :: 0 <= i < |bars| && ValidBar(bars[i]) && Mask(bars)[j] == RowOf(bars[i])
      {
        if j < |Mask(init)| {
          var i :| 0 <= i < |init| && ValidBar(init[i]) && Mask(init)[j] == RowOf(init[i]);
          assert bars[i] == init[i];
        } else {
          assert ValidBar(last) && Mask(bars)[j] == RowOf(last);
          assert bars[|bars| - 1] == last;
        }
      }
      if forall i :: 0 <= i < |bars| ==> ValidBar(bars[i]) {
        assert forall i :: 0 <= i < |init| ==> ValidBar(init[i]);
        var whole := seq(|bars|, i requires 0 <= i < |bars| && ValidBar(bars[i]) => RowOf(bars[i]));
        assert Mask(bars) == Mask(init) + [RowOf(bars[|bars| - 1])];
        assert forall i :: 0 <= i < |init| ==> Mask(bars)[i] == whole[i];
      }
    } else {
      assert Mask(bars) == [];
    }
  }

  function Closes(rows: seq<Row>): (c: seq<real>)
    ensures |c| == |rows| && forall i :: 0 <= i < |rows| ==> c[i] == rows[i].close
  {
    seq(|rows|, i requires 0 <= i < |rows| => rows[i].close)
  }

  function Volumes(rows: seq<Row>): (v: seq<real>)
    ensures |v| == |rows| && forall i :: 0 <= i < |rows| ==> v[i] == rows[i].volume
  {
    seq(|rows|, i requires 0 <= i < |rows| => rows[i].volume)
  }

  // ---------------------------------------------------------------------------
  // Filters
  // ---------------------------------------------------------------------------

  /** The three most recent daily returns, each guarded against a non-positive base. */
  function RecentReturns(c: seq<real>): (real, real, real)
    requires |c| >= 4
  {
    var n := |c|;
    var d1 := if c[n - 2] > 0.0 then c[n - 1] / c[n - 2] - 1.0 else 0.0;
    var d2 := if c[n - 3] > 0.0 then c[n - 2] / c[n - 3] - 1.0 else 0.0;
    var d3 := if c[n - 4] > 0.0 then c[n - 3] / c[n - 4] - 1.0 else 0.0;
    (d1, d2, d3)
  }

  /** A sharp single-day drop or a cumulative three-day drop of more than 10%. */
  predicate DropFilter(c: seq<real>, dropThreshold: real)
    requires |c| >= 4
  {
    var (d1, d2, d3) := RecentReturns(c);
    d1 < -dropThreshold || d2 < -dropThreshold || d3 < -dropThreshold || d1 + d2 + d3 < -0.1
  }

  // ---------------------------------------------------------------------------
  // Momentum and quality
  // ---------------------------------------------------------------------------

  /** `_calculate_momentum_factor`: 0.0 unless every close is positive. */
  function Momentum(c: seq<real>, nums: Numerics): (m: real)
    ensures (exists i :: 0 <= i < |c| && c[i] <= 0.0) ==> m == 0.0
  {
    if exists i :: 0 <= i < |c| && c[i] <= 0.0 then 0.0 else nums.momentum(c)
  }

  /** The seven sub-factors of the quality score; a drawdown score of None is NaN. */
  datatype QualityTerms = QualityTerms(
    slopeR2: real, maFactor: real, rsrs: real, volatilityFactor: real,
    drawdownScore: Option<real>, sharpeScore: real, multiMaFactor: real)

  /** `1 / (1 + abs(max_drawdown))` with NumPy's infinities: minus infinity scores 0, NaN stays NaN. */
  function DrawdownScore(mdd: Float): (s: Option<real>)
    ensures s.None? <==> mdd.NaN?
    ensures s.Some? ==> 0.0 <= s.value <= 1.0
    ensures mdd.Finite? ==> s.Some? && s.value > 0.0
    ensures mdd == Finite(0.0) ==> s == Some(1.0)
  {
    match mdd
    case Finite(v) =>
      var a := if v < 0.0 then -v else v;
      Some(1.0 / (1.0 + a))
    case NegInf => Some(0.0)
    case NaN => None
  }

  /** RSRS entry: `slope * r` of a two-point regression through (0, low), (1, high), which is `|high - low|`. */
  function RsrsBeta(h: real, l: real): (b: real)
    ensures b >= 0.0 && (b == 0.0 <==> h == l)
  {
    if h != l then (if h - l < 0.0 then l - h else h - l) else 0.0
  }

  /** `beta_list`: bars `n - rsrsWindow + i` for `i < min(rsrsWindow, 5)`, the oldest of the window. */
  function RsrsBetas(rows: seq<Row>, rsrsWindow: nat): (b: seq<real>)
    requires 1 <= rsrsWindow <= |rows|
    ensures |b| == (if rsrsWindow < 5 then rsrsWindow else 5)
    ensures forall i :: 0 <= i < |b| ==>
      b[i] == RsrsBeta(rows[|rows| - rsrsWindow + i].high, rows[|rows| - rsrsWindow + i].low)
  {
    var k := if rsrsWindow < 5 then rsrsWindow else 5;
    seq(k, i requires 0 <= i < k =>
      RsrsBeta(rows[|rows| - rsrsWindow + i].high, rows[|rows| - rsrsWindow + i].low))
  }

  /** The RSRS term: the mean of the betas, non-negative. */
  function Rsrs(rows: seq<Row>, rsrsWindow: nat): (r: real)
    requires 1 <= rsrsWindow <= |rows|
    ensures r >= 0.0
  {
    var b := RsrsBetas(rows, rsrsWindow);
    SumNonNegative(b);
    Mean(b)
  }

  /** `np.diff(w) / w[:-1]` over the last `volatilityWindow` closes; empty below two closes. */
  function WindowReturns(c: seq<real>, volatilityWindow: nat): (r: seq<real>)
    requires forall i :: 0 <= i < |c| ==> c[i] > 0.0
  {
    var w := TakeLast(c, volatilityWindow);
    if |w| < 2 then []
    else seq(|w| - 1, i requires 0 <= i < |w| - 1 => (w[i + 1] - w[i]) / w[i])
  }

  /** `1 / (1 + volatility)`, with volatility 0 for an empty return series. */
  function VolatilityFactor(rv: seq<real>, nums: Numerics): (f: real)
    requires ValidNumerics(nums)
    ensures 0.0 < f <= 1.0
    ensures |rv| == 0 ==> f == 1.0
  {
    var volatility := if |rv| > 0 then nums.popStd(rv) else 0.0;
    1.0 / (1.0 + volatility)
  }

  /** `max(0, sharpe)`. */
  function SharpeScore(rv: seq<real>, nums: Numerics): (s: real)
    requires ValidNumerics(nums)
    ensures s >= 0.0
    ensures s == 0.0 <==> SharpeRatio(rv, 0.02, nums) <= 0.0
  {
    var sharpe := SharpeRatio(rv, 0.02, nums);
    if sharpe > 0.0 then sharpe else 0.0
  }

  /** A 0/1 flag as a real. */
  function Flag(b: bool): (f: real)
    ensures f == 0.0 || f == 1.0
    ensures f == 1.0 <==> b
  {
    if b then 1.0 else 0.0
  }

  function Terms(rows: seq<Row>, p: FactorParams, nums: Numerics): (t: QualityTerms)
    requires ValidParams(p) && ValidNumerics(nums)
    requires p.slopeWindow <= |rows| && p.rsrsWindow <= |rows|
    requires forall i :: 0 <= i < |rows| ==> rows[i].close > 0.0
    ensures t.maFactor == 0.0 || t.maFactor == 1.0
    ensures t.multiMaFactor == 0.0 || t.multiMaFactor == 1.0
    ensures t.multiMaFactor == 1.0 ==> t.maFactor == 1.0
    ensures 0.0 < t.volatilityFactor <= 1.0
    ensures t.drawdownScore.Some? ==> 0.0 <= t.drawdownScore.value <= 1.0
    ensures t.sharpeScore >= 0.0 && t.rsrs >= 0.0
    ensures var y := TakeLast(Closes(rows), p.slopeWindow);
      (forall i :: 0 <= i < |y| ==> y[i] == y[0]) ==> t.slopeR2 == 0.0
    ensures var y := TakeLast(Closes(rows), p.slopeWindow);
      !(forall i :: 0 <= i < |y| ==> y[i] == y[0]) ==> t.slopeR2 == nums.slopeR2(y)
  {
    var c := Closes(rows);
    var n := |c|;
    var ySlope := TakeLast(c, p.slopeWindow);
    var slopeR2 := if forall i :: 0 <= i < |ySlope| ==> ySlope[i] == ySlope[0] then 0.0 else nums.slopeR2(ySlope);
    var ma := Mean(TakeLast(c, p.maWindow));
    var ma10 := if n >= 10 then Mean(TakeLast(c, 10)) else ma;
    var rv := WindowReturns(c, p.volatilityWindow);
    QualityTerms(slopeR2, Flag(c[n - 1] > ma), Rsrs(rows, p.rsrsWindow), VolatilityFactor(rv, nums),
                 DrawdownScore(MaxDrawdown(rv)), SharpeScore(rv, nums), Flag(c[n - 1] > ma10 && c[n - 1] > ma))
  }

  /** The fixed seven-term weighting; a NaN drawdown makes the score NaN. */
  function Weighted(t: QualityTerms): Float
  {
    match t.drawdownScore
    case None => NaN
    case Some(d) =>
      Finite(0.15 * t.slopeR2 + 0.15 * t.maFactor + 0.15 * t.rsrs + 0.15 * t.volatilityFactor
             + 0.2 * d + 0.15 * t.sharpeScore + 0.05 * t.multiMaFactor)
  }

  /**
   * `_calculate_quality_factor`: 0.0 below `slopeWindow` closes, and 0.0 from
   * the handler when the RSRS window reaches before the first bar (IndexError).
   */
  function Quality(rows: seq<Row>, p: FactorParams, nums: Numerics): (q: Float)
    requires ValidParams(p) && ValidNumerics(nums)
    requires forall i :: 0 <= i < |rows| ==> rows[i].close > 0.0
    ensures |rows| < p.slopeWindow ==> q == Finite(0.0)
    ensures p.slopeWindow <= |rows| < p.rsrsWindow ==> q == Finite(0.0)
    ensures p.slopeWindow <= |rows| && p.rsrsWindow <= |rows| ==> q == Weighted(Terms(rows, p, nums))
  {
    if |rows| < p.slopeWindow then Finite(0.0)
    else if p.rsrsWindow > |rows| then Finite(0.0)
    else Weighted(Terms(rows, p, nums))
  }

  /**
   * Bounds of a finite quality score in terms of its unbounded sub-factors:
   * at least the slope and RSRS part, and at most that part plus 0.55 plus
   * the Sharpe part.
   */
  lemma QualityBounds(rows: seq<Row>, p: FactorParams, nums: Numerics)
    requires ValidParams(p) && ValidNumerics(nums)
    requires p.slopeWindow <= |rows| && p.rsrsWindow <= |rows|
    requires forall i :: 0 <= i < |rows| ==> rows[i].close > 0.0
    ensures var t := Terms(rows, p, nums);
      Quality(rows, p, nums).Finite? ==>
        0.15 * t.slopeR2 + 0.15 * t.rsrs <= Quality(rows, p, nums).v
        <= 0.15 * t.slopeR2 + 0.15 * t.rsrs + 0.15 * t.sharpeScore + 0.55
  {
  }

  // ---------------------------------------------------------------------------
  // calculate_all_factors
  // ---------------------------------------------------------------------------

  /** `momentum * quality` in floating point: NaN quality gives NaN. */
  function Times(m: real, q: Float): Float
  {
    match q
    case Finite(v) => Finite(m * v)
    case NegInf => NaN
    case NaN => NaN
  }

  /** The volume ratio is taken on a NumPy array, which has no `.rolling`. */
  function PipelineVolumeRatio(rows: seq<Row>, p: FactorParams): real
    requires ValidParams(p)
  {
    VolumeRatio(Volumes(rows), p.volumeShortWindow, p.volumeLongWindow, false)
  }

  function CalculateAllFactors(bars: seq<Bar>, p: FactorParams, nums: Numerics): (r: FactorResult)
    requires ValidParams(p) && ValidNumerics(nums)
    ensures |bars| < 10 || CountValid(bars) < 10 ==> r == ZeroComposite
    ensures r.Scored? ==> r.composite == Times(r.momentum, r.quality)
    ensures r.Scored? <==>
      && |bars| >= 10 && CountValid(bars) >= 10
      && !(PipelineVolumeRatio(Mask(bars), p) > p.volumeFilterThreshold)
      && !DropFilter(Closes(Mask(bars)), p.dropThreshold)
    ensures r.Scored? ==>
      && r.momentum == Momentum(Closes(Mask(bars)), nums)
      && r.quality == Quality(Mask(bars), p, nums)
      && r.volRatio == 1.0
  {
    if |bars| < 10 then ZeroComposite
    else
      var rows := Mask(bars);
      if |rows| < 10 then ZeroComposite
      else
        var volRatio := PipelineVolumeRatio(rows, p);
        if volRatio > p.volumeFilterThreshold then ZeroComposite
        else
          var c := Closes(rows);
          if |c| >= 4 && DropFilter(c, p.dropThreshold) then ZeroComposite
          else
            var m := Momentum(c, nums);
            var q := Quality(rows, p, nums);
            Scored(m, q, Times(m, q), volRatio)
  }

  /**
   * Because the volume series reaches the ratio as a NumPy array, the ratio is
   * always 1.0, so the volume filter fires exactly when the threshold is below
   * 1.0, and never with the default threshold of 2.0.
   */
  lemma VolumeFilterFiresIffThresholdBelowOne(rows: seq<Row>, p: FactorParams)
    requires ValidParams(p)
    ensures PipelineVolumeRatio(rows, p) > p.volumeFilterThreshold <==> p.volumeFilterThreshold < 1.0
    ensures p == DefaultParams ==> !(PipelineVolumeRatio(rows, p) > p.volumeFilterThreshold)
  {
  }

  /** After the mask every close is positive, so the momentum kernel is always consulted. */
  lemma MomentumOnMaskedCloses(bars: seq<Bar>, nums: Numerics)
    ensures Momentum(Closes(Mask(bars)), nums) == nums.momentum(Closes(Mask(bars)))
  {
  }

  /** The drop filter rejects any series whose last close is more than `dropThreshold` below the one before. */
  lemma LastDayDropRejects(c: seq<real>, dropThreshold: real)
    requires |c| >= 4 && forall i :: 0 <= i < |c| ==> c[i] > 0.0
    requires c[|c| - 1] < c[|c| - 2] * (1.0 - dropThreshold)
    ensures DropFilter(c, dropThreshold)
  {
    var a, b := c[|c| - 1], c[|c| - 2];
    var d1 := a / b - 1.0;
    assert (a / b) * b == a;
    assert d1 * b == a - b;
    assert d1 * b < -dropThreshold * b;
  }
}
