/**
 * The grid-trading strategy: a ladder of evenly spaced price levels around a
 * centre price, buy signals at levels the price is close to, a grid
 * re-centred every few bars or after a large move, and the RSI, grid
 * position and exit helpers.
 */
module GridTrading {
  import opened Wrappers
  import opened Seqs
  import opened Utils

  /** The strategy's parameters (the defaults are 10, 0.02, 0.2, 5, 0.1, 0.15 and 0.3). */
  datatype GridParams = GridParams(gridCount: nat, gridSpacing: real, priceRangePct: real,
                                   rebalanceInterval: int, takeProfitThreshold: real,
                                   stopLossThreshold: real, maxPositionRatio: real)

  // ---------------------------------------------------------------------------
  // Grid levels
  // ---------------------------------------------------------------------------

  /** `np.linspace(lo, hi, n)` over exact reals: `n` points from `lo` to `hi` inclusive. */
  function Linspace(lo: real, hi: real, n: nat): (r: seq<real>)
    ensures |r| == n
    ensures n > 1 ==> forall i :: 0 <= i < n ==> r[i] == lo + (i as real) * ((hi - lo) / ((n - 1) as real))
    ensures n == 1 ==> r == [lo]
  {
    if n == 0 then []
    else if n == 1 then [lo]
    else
      var step := (hi - lo) / ((n - 1) as real);
      seq(n, i requires 0 <= i < n => lo + (i as real) * step)
  }

  /** The levels start at `lo` and end at `hi`. */
  lemma LinspaceEnds(lo: real, hi: real, n: nat)
    requires n > 1
    ensures Linspace(lo, hi, n)[0] == lo && Linspace(lo, hi, n)[n - 1] == hi
  {
    var m := (n - 1) as real;
    assert m * ((hi - lo) / m) == hi - lo;
  }

  /** Consecutive levels are one step `(hi − lo)/(n − 1)` apart. */
  lemma LinspaceSteps(lo: real, hi: real, n: nat)
    requires n > 1
    ensures forall i :: 0 <= i < n - 1 ==>
      Linspace(lo, hi, n)[i + 1] - Linspace(lo, hi, n)[i] == (hi - lo) / ((n - 1) as real)
  {
    var r := Linspace(lo, hi, n);
    var step := (hi - lo) / ((n - 1) as real);
    forall i | 0 <= i < n - 1
      ensures r[i + 1] - r[i] == step
    {
      ScaleDistributes(i as real, 1.0, step);
    }
  }

  /** The levels ascend when `lo <= hi`. */
  lemma LinspaceAscending(lo: real, hi: real, n: nat)
    requires n > 1 && lo <= hi
    ensures forall i, j :: 0 <= i <= j < n ==> Linspace(lo, hi, n)[i] <= Linspace(lo, hi, n)[j]
  {
    var r := Linspace(lo, hi, n);
    var step := (hi - lo) / ((n - 1) as real);
    assert step >= 0.0;
    forall i, j | 0 <= i <= j < n
      ensures r[i] <= r[j]
    {
      ScaleDistributes(i as real, (j - i) as real, step);
      NonNegativeScale((j - i) as real, step);
    }
  }

  lemma ScaleDistributes(a: real, b: real, c: real)
    ensures (a + b) * c == a * c + b * c
  {
  }

  lemma NonNegativeScale(a: real, b: real)
    requires a >= 0.0 && b >= 0.0
    ensures a * b >= 0.0
  {
  }

  /** The levels of a grid centred on `price`: `price·(1 − range)` to `price·(1 + range)`. */
  function GridLevels(price: real, params: GridParams): (r: seq<real>)
    ensures |r| == params.gridCount
  {
    Linspace(price * (1.0 - params.priceRangePct), price * (1.0 + params.priceRangePct), params.gridCount)
  }

  // ---------------------------------------------------------------------------
  // Signals
  // ---------------------------------------------------------------------------

  /** A grid signal; `strength` is the distance to the level relative to the price. */
  datatype GridSignal = GridSignal(action: string, targetWeight: real, priceLevel: real,
                                   currentPrice: real, strength: real)

  /** The price is within half a grid spacing of the level. */
  predicate NearLevel(level: real, price: real, params: GridParams)
  {
    Abs(price - level) < price * params.gridSpacing * 0.5
  }

  /** Being near a level needs a non-zero price, so the strength is defined. */
  lemma NearLevelPriceNonZero(level: real, price: real, params: GridParams)
    requires NearLevel(level, price, params)
    ensures price != 0.0
  {
  }

  /** The buy signal at a level the price is near. */
  function BuySignal(level: real, price: real, params: GridParams): (s: GridSignal)
    requires NearLevel(level, price, params)
    ensures s.action == "buy" && s.targetWeight == params.maxPositionRatio && s.priceLevel == level
    ensures s.strength * price == Abs(price - level)
  {
    GridSignal("buy", params.maxPositionRatio, level, price, Abs(price - level) / price)
  }

  /** A level emits a buy when the price is near it and it holds less than the position cap. */
  predicate Buys(entry: (real, real), price: real, params: GridParams)
  {
    NearLevel(entry.0, price, params) && entry.1 < params.maxPositionRatio
  }

  /**
   * The buy signals of the loop over `grid_positions` (level to position
   * size, in insertion order), given that no level holds a position.
   */
  function BuySignals(positions: seq<(real, real)>, price: real, params: GridParams): (m: map<real, GridSignal>)
    ensures forall l :: l in m ==> NearLevel(l, price, params) && m[l] == BuySignal(l, price, params)
  {
    if |positions| == 0 then map[]
    else
      var m := BuySignals(positions[..|positions| - 1], price, params);
      var last := positions[|positions| - 1];
      if Buys(last, price, params) then m[last.0 := BuySignal(last.0, price, params)] else m
  }

  /** A level has a signal exactly when some entry for it passes the buy test. */
  lemma {:induction false} BuySignalsKeys(positions: seq<(real, real)>, price: real, params: GridParams)
    ensures forall l :: l in BuySignals(positions, price, params) <==>
      exists i :: 0 <= i < |positions| && positions[i].0 == l && Buys(positions[i], price, params)
    decreases |positions|
  {
    if |positions| > 0 {
      var init := positions[..|positions| - 1];
      BuySignalsKeys(init, price, params);
      forall l ensures l in BuySignals(positions, price, params) <==>
        exists i :: 0 <= i < |positions| && positions[i].0 == l && Buys(positions[i], price, params)
      {
        if exists i :: 0 <= i < |positions| && positions[i].0 == l && Buys(positions[i], price, params) {
          var i :| 0 <= i < |positions| && positions[i].0 == l && Buys(positions[i], price, params);
          if i < |positions| - 1 {
            assert init[i] == positions[i];
          }
        }
        if l in BuySignals(init, price, params) {
          var i :| 0 <= i < |init| && init[i].0 == l && Buys(init[i], price, params);
          assert positions[i] == init[i];
        }
      }
    }
  }

  /** The signals of a prefix one entry longer. */
  lemma BuySignalsStep(positions: seq<(real, real)>, i: nat, price: real, params: GridParams)
    requires i < |positions|
    ensures Buys(positions[i], price, params) ==>
      BuySignals(positions[..i + 1], price, params)
      == BuySignals(positions[..i], price, params)[positions[i].0 := BuySignal(positions[i].0, price, params)]
    ensures !Buys(positions[i], price, params) ==>
      BuySignals(positions[..i + 1], price, params) == BuySignals(positions[..i], price, params)
  {
    assert positions[..i + 1][..i] == positions[..i];
  }

  /** With every position empty and a positive cap, exactly the levels near the price buy. */
  lemma EmptyGridBuysNearLevels(positions: seq<(real, real)>, price: real, params: GridParams)
    requires forall i :: 0 <= i < |positions| ==> positions[i].1 == 0.0
    requires params.maxPositionRatio > 0.0
    ensures forall l :: l in BuySignals(positions, price, params) <==> HasKey(positions, l) && NearLevel(l, price, params)
  {
    BuySignalsKeys(positions, price, params);
    forall l | HasKey(positions, l) && NearLevel(l, price, params)
      ensures l in BuySignals(positions, price, params)
    {
      var i :| 0 <= i < |positions| && positions[i].0 == l;
      assert Buys(positions[i], price, params);
    }
  }

  /** Whether `generate_signals` re-centres the grid first; `None` is the division by a zero centre. */
  function ShouldRebalance(barCount: nat, lastRebalanceDay: int, center: Option<real>, price: real,
                           params: GridParams): (r: Option<bool>)
    ensures barCount - lastRebalanceDay >= params.rebalanceInterval ==> r == Some(true)
    ensures barCount - lastRebalanceDay < params.rebalanceInterval && center.None? ==> r == Some(true)
    ensures r.None? <==> barCount - lastRebalanceDay < params.rebalanceInterval && center == Some(0.0)
    ensures barCount - lastRebalanceDay < params.rebalanceInterval && center.Some? && center.value > 0.0 ==>
      (r == Some(true) <==> Abs(price - center.value) > 0.2 * center.value)
    ensures barCount - lastRebalanceDay < params.rebalanceInterval && center.Some? && center.value < 0.0 ==>
      r == Some(false)
  {
    if barCount - lastRebalanceDay >= params.rebalanceInterval then Some(true)
    else if center.None? then Some(true)
    else if center.value == 0.0 then None
    else
      var deviation := Abs(price - center.value) / center.value;
      DeviationScale(price - center.value, center.value);
      Some(deviation > 0.2)
  }

  /** A relative deviation passes 0.2 exactly when the deviation passes 0.2 of a positive centre, and never for a negative one. */
  lemma DeviationScale(d: real, c: real)
    requires c != 0.0
    ensures c > 0.0 ==> (Abs(d) / c > 0.2 <==> Abs(d) > 0.2 * c)
    ensures c < 0.0 ==> Abs(d) / c <= 0.0
  {
    var q := Abs(d) / c;
    assert q * c == Abs(d);
    if c > 0.0 {
      ScaledAbove(q, c, Abs(d), 0.2);
    }
  }

  /** Cancelling a positive factor keeps a strict comparison. */
  lemma ScaledAbove(q: real, c: real, a: real, k: real)
    requires c > 0.0 && q * c == a
    ensures q > k <==> a > k * c
  {
    assert (q - k) * c == a - k * c;
    if q > k {
      assert (q - k) * c > 0.0;
    } else {
      assert (k - q) * c >= 0.0;
    }
  }

  // ---------------------------------------------------------------------------
  // The strategy state
  // ---------------------------------------------------------------------------

  class GridStrategy {
    const params: GridParams
    /** The current ladder of levels. */
    var levels: seq<real>
    /** Position size per level, keyed by the levels laid out at initialisation, in insertion order. */
    var positions: seq<(real, real)>
    var center: Option<real>
    var lastRebalanceDay: int
    var priceHistory: seq<real>

    /** A dictionary's keys are distinct, and nothing ever fills a grid position. */
    predicate Valid()
      reads this
    {
      DistinctKeys(positions) && forall i :: 0 <= i < |positions| ==> positions[i].1 == 0.0
    }

    /** `__init__` and `_initialize_grid` on a feed with `barCount` bars whose latest close is `close`. */
    constructor (params: GridParams, barCount: nat, close: real)
      ensures Valid()
      ensures this.params == params && lastRebalanceDay == 0 && priceHistory == []
      ensures barCount > 0 ==> center == Some(close) && levels == GridLevels(close, params)
                               && forall l :: HasKey(positions, l) <==> l in levels
      ensures barCount == 0 ==> center.None? && levels == [] && positions == []
    {
      this.params := params;
      lastRebalanceDay := 0;
      priceHistory := [];
      if barCount > 0 {
        center := Some(close);
        var ls := GridLevels(close, params);
        levels := ls;
        var ps := LayOut(ls);
        positions := ps;
      } else {
        center := None;
        levels := [];
        positions := [];
      }
    }

    /** `_rebalance_grid`: re-centre on `price`; the per-level positions are kept as they are. */
    method RebalanceGrid(barCount: nat, price: real)
      modifies this
      ensures center == Some(price) && levels == GridLevels(price, params) && lastRebalanceDay == barCount
      ensures positions == old(positions) && priceHistory == old(priceHistory)
    {
      center := Some(price);
      levels := GridLevels(price, params);
      lastRebalanceDay := barCount;
    }

    /**
     * `generate_signals` for one bar: record the price, re-centre when due,
     * then emit a buy at each level near the price and a weight per symbol.
     * `None` is the division error on a zero centre, raised after the price
     * was recorded.
     */
    method GenerateSignals(barCount: nat, price: real, symbols: seq<string>)
      returns (r: Option<(map<real, GridSignal>, map<string, real>)>)
      requires Valid()
      modifies this
      ensures Valid()
      ensures priceHistory == old(priceHistory) + [price]
      ensures positions == old(positions)
      ensures r.None? <==> ShouldRebalance(barCount, old(lastRebalanceDay), old(center), price, params).None?
      ensures ShouldRebalance(barCount, old(lastRebalanceDay), old(center), price, params) == Some(true) ==>
        center == Some(price) && levels == GridLevels(price, params) && lastRebalanceDay == barCount
      ensures ShouldRebalance(barCount, old(lastRebalanceDay), old(center), price, params) != Some(true) ==>
        center == old(center) && levels == old(levels) && lastRebalanceDay == old(lastRebalanceDay)
      ensures r.Some? ==> r.value.0 == BuySignals(positions, price, params) && r.value.1 == map[]
    {
      priceHistory := priceHistory + [price];
      var rebalance := ShouldRebalance(barCount, lastRebalanceDay, center, price, params);
      if rebalance.None? {
        return None;
      }
      if rebalance.value {
        RebalanceGrid(barCount, price);
      }
      var signals := LevelSignals(positions, price, params);
      var weights := SymbolWeights(positions, symbols, params);
      r := Some((signals, weights));
    }
  }

  /** The initial `grid_positions`: each level at 0, a repeated level kept once. */
  method LayOut(ls: seq<real>) returns (ps: seq<(real, real)>)
    ensures DistinctKeys(ps)
    ensures forall j :: 0 <= j < |ps| ==> ps[j].1 == 0.0
    ensures forall l :: HasKey(ps, l) <==> l in ls
  {
    ps := [];
    for i := 0 to |ls|
      invariant DistinctKeys(ps)
      invariant forall j :: 0 <= j < |ps| ==> ps[j].1 == 0.0
      invariant forall l :: HasKey(ps, l) <==> l in ls[..i]
    {
      assert ls[..i + 1] == ls[..i] + [ls[i]];
      // A repeated level is already present at 0; assigning 0 again changes nothing.
      if !HasKey(ps, ls[i]) {
        AppendKey(ps, ls[i], 0.0);
        ps := ps + [(ls[i], 0.0)];
      }
    }
    assert ls[..|ls|] == ls;
  }

  /** Appending an entry adds exactly its key. */
  lemma AppendKey<V>(ps: seq<(real, V)>, k: real, v: V)
    ensures forall l :: HasKey(ps + [(k, v)], l) <==> HasKey(ps, l) || l == k
  {
    forall l | HasKey(ps, l) ensures HasKey(ps + [(k, v)], l) {
      var j :| 0 <= j < |ps| && ps[j].0 == l;
      assert (ps + [(k, v)])[j].0 == l;
    }
    assert (ps + [(k, v)])[|ps|].0 == k;
  }

  /**
   * The loop over the grid positions.  The sell branch needs a filled
   * position, which never exists, so it is dead.
   */
  method LevelSignals(positions: seq<(real, real)>, price: real, params: GridParams)
    returns (signals: map<real, GridSignal>)
    requires forall i :: 0 <= i < |positions| ==> positions[i].1 == 0.0
    ensures signals == BuySignals(positions, price, params)
  {
    signals := map[];
    for i := 0 to |positions|
      invariant signals == BuySignals(positions[..i], price, params)
    {
      BuySignalsStep(positions, i, price, params);
      var (level, size) := positions[i];
      var diff := price - level;
      if Abs(diff) < price * params.gridSpacing * 0.5 {
        if size < params.maxPositionRatio {
          signals := signals[level := BuySignal(level, price, params)];
        }
      } else if diff > 0.0 && size > 0.0 {
        assert false;
      }
    }
    assert positions[..|positions|] == positions;
  }

  /**
   * The per-symbol weight loop: the summed absolute grid positions over the
   * number of symbols, capped at the position ratio, kept when above 0.01.
   * With every position empty the sum is zero and no symbol gets a weight.
   */
  method SymbolWeights(positions: seq<(real, real)>, symbols: seq<string>, params: GridParams)
    returns (weights: map<string, real>)
    requires forall i :: 0 <= i < |positions| ==> positions[i].1 == 0.0
    ensures weights == map[]
  {
    weights := map[];
    for i := 0 to |symbols|
      invariant weights == map[]
    {
      var sum := SumAbsPositions(positions);
      var total := sum / (|symbols| as real);
      if params.maxPositionRatio < total {
        total := params.maxPositionRatio;
      }
      if total > 0.01 {
        assert false;
      }
    }
  }

  /** `sum(abs(pos) for pos in grid_positions.values())`. */
  method SumAbsPositions(positions: seq<(real, real)>) returns (sum: real)
    requires forall i :: 0 <= i < |positions| ==> positions[i].1 == 0.0
    ensures sum == 0.0
  {
    sum := 0.0;
    for i := 0 to |positions|
      invariant sum == 0.0
    {
      sum := sum + Abs(positions[i].1);
    }
  }

  // ---------------------------------------------------------------------------
  // Indicators and exits
  // ---------------------------------------------------------------------------

  /** `np.diff`. */
  function Diff(p: seq<real>): (d: seq<real>)
    requires |p| > 0
    ensures |d| == |p| - 1 && forall i :: 0 <= i < |d| ==> d[i] == p[i + 1] - p[i]
  {
    seq(|p| - 1, i requires 0 <= i < |p| - 1 => p[i + 1] - p[i])
  }

  function Gains(d: seq<real>): (g: seq<real>)
    ensures |g| == |d| && forall i :: 0 <= i < |g| ==> g[i] >= 0.0 && g[i] == (if d[i] > 0.0 then d[i] else 0.0)
  {
    seq(|d|, i requires 0 <= i < |d| => if d[i] > 0.0 then d[i] else 0.0)
  }

  function Losses(d: seq<real>): (l: seq<real>)
    ensures |l| == |d| && forall i :: 0 <= i < |l| ==> l[i] >= 0.0 && l[i] == (if d[i] < 0.0 then -d[i] else 0.0)
  {
    seq(|d|, i requires 0 <= i < |d| => if d[i] < 0.0 then -d[i] else 0.0)
  }

  /** `_calculate_rsi`: 50 on a short series, 100 with no losses in the window, else `100 − 100/(1 + gain/loss)`. */
  function Rsi(prices: seq<real>, window: nat): (r: real)
    requires window > 0
    ensures |prices| < window + 1 ==> r == 50.0
  {
    if |prices| < window + 1 then 50.0
    else
      var d := Diff(prices);
      var avgGain := WindowMean(Gains(d), window);
      var avgLoss := WindowMean(Losses(d), window);
      RsiOf(avgGain, avgLoss)
  }

  /** `100 − 100 / (1 + gain / loss)`, or 100 when there is no loss. */
  function RsiOf(avgGain: real, avgLoss: real): (r: real)
    requires avgGain >= 0.0 && avgLoss >= 0.0
    ensures avgLoss == 0.0 ==> r == 100.0
    ensures avgLoss > 0.0 ==> 0.0 <= r < 100.0
  {
    if avgLoss == 0.0 then 100.0
    else
      var rs := avgGain / avgLoss;
      RsiFormulaRange(rs);
      100.0 - 100.0 / (1.0 + rs)
  }

  /** `np.mean(s[-window:])` for a window no longer than the series. */
  function WindowMean(s: seq<real>, window: nat): (m: real)
    requires 0 < window <= |s|
    ensures (forall i :: 0 <= i < |s| ==> s[i] >= 0.0) ==> m >= 0.0
  {
    var w := TakeLast(s, window);
    assert forall i :: 0 <= i < |w| ==> w[i] == s[|s| - window + i];
    SumNonNegativeIf(w);
    Mean(w)
  }

  lemma SumNonNegativeIf(s: seq<real>)
    ensures (forall i :: 0 <= i < |s| ==> s[i] >= 0.0) ==> Sum(s) >= 0.0
  {
    if forall i :: 0 <= i < |s| ==> s[i] >= 0.0 {
      SumNonNegative(s);
    }
  }

  /** The RSI is 100 exactly when the window has no loss, and otherwise lies in [0, 100). */
  lemma RsiRange(prices: seq<real>, window: nat)
    requires window > 0 && |prices| >= window + 1
    ensures WindowMean(Losses(Diff(prices)), window) == 0.0 ==> Rsi(prices, window) == 100.0
    ensures WindowMean(Losses(Diff(prices)), window) != 0.0 ==> 0.0 <= Rsi(prices, window) < 100.0
  {
    var d := Diff(prices);
    assert WindowMean(Gains(d), window) >= 0.0;
    assert WindowMean(Losses(d), window) >= 0.0;
  }

  lemma RsiFormulaRange(rs: real)
    requires rs >= 0.0
    ensures 0.0 <= 100.0 - 100.0 / (1.0 + rs) < 100.0
  {
    var q := 100.0 / (1.0 + rs);
    assert q * (1.0 + rs) == 100.0;
    assert q > 0.0;
  }

  /** The lowest element. */
  function SeqMin(s: seq<real>): (m: real)
    requires |s| > 0
    ensures m in s && forall i :: 0 <= i < |s| ==> m <= s[i]
  {
    if |s| == 1 then s[0]
    else
      var m := SeqMin(s[..|s| - 1]);
      assert forall x :: x in s[..|s| - 1] ==> x in s;
      if s[|s| - 1] < m then s[|s| - 1] else m
  }

  /** The highest element. */
  function SeqMax(s: seq<real>): (m: real)
    requires |s| > 0
    ensures m in s && forall i :: 0 <= i < |s| ==> s[i] <= m
  {
    if |s| == 1 then s[0]
    else
      var m := SeqMax(s[..|s| - 1]);
      assert forall x :: x in s[..|s| - 1] ==> x in s;
      if s[|s| - 1] > m then s[|s| - 1] else m
  }

  /** `_calculate_grid_position`: where the price sits between the lowest and highest level, clamped to [0, 1]. */
  function GridPosition(levels: seq<real>, price: real): (p: real)
    ensures 0.0 <= p <= 1.0
    ensures |levels| == 0 ==> p == 0.5
    ensures |levels| > 0 && SeqMin(levels) == SeqMax(levels) ==> p == 0.5
    ensures |levels| > 0 && SeqMin(levels) != SeqMax(levels) && price <= SeqMin(levels) ==> p == 0.0
    ensures |levels| > 0 && SeqMin(levels) != SeqMax(levels) && price >= SeqMax(levels) ==> p == 1.0
  {
    if |levels| == 0 then 0.5
    else
      var lo := SeqMin(levels);
      var hi := SeqMax(levels);
      if hi == lo then 0.5
      else
        var position := (price - lo) / (hi - lo);
        ClampedFraction(price, lo, hi);
        if position < 0.0 then 0.0 else if position > 1.0 then 1.0 else position
  }

  lemma ClampedFraction(price: real, lo: real, hi: real)
    requires lo < hi
    ensures price <= lo ==> (price - lo) / (hi - lo) <= 0.0
    ensures price >= hi ==> (price - lo) / (hi - lo) >= 1.0
  {
    var f := (price - lo) / (hi - lo);
    assert f * (hi - lo) == price - lo;
    if price <= lo {
      CancelPositiveFactor(0.0, f, 0.0, price - lo, hi - lo);
    }
    if price >= hi {
      CancelPositiveFactor(f, 1.0, price - lo, hi - lo, hi - lo);
    }
  }

  /** A higher price never sits lower in the grid. */
  lemma GridPositionMonotone(levels: seq<real>, p1: real, p2: real)
    requires p1 <= p2
    ensures GridPosition(levels, p1) <= GridPosition(levels, p2)
  {
    if |levels| > 0 && SeqMin(levels) != SeqMax(levels) {
      var lo := SeqMin(levels);
      var hi := SeqMax(levels);
      assert lo < hi;
      var f1 := (p1 - lo) / (hi - lo);
      var f2 := (p2 - lo) / (hi - lo);
      assert f1 * (hi - lo) == p1 - lo && f2 * (hi - lo) == p2 - lo;
      CancelPositiveFactor(f2, f1, p2 - lo, p1 - lo, hi - lo);
    }
  }

  datatype GridExit = NoExit | TakeProfit | StopLoss

  /**
   * `check_exit_conditions`.  `fed` says whether the symbol has a data feed,
   * `size`/`cost` are the broker position, `market` the latest close; `None`
   * is the division error on a zero cost.
   */
  function CheckExit(fed: bool, size: real, cost: real, market: real, params: GridParams): (r: Option<GridExit>)
    ensures !fed || size <= 0.0 ==> r == Some(NoExit)
    ensures r.None? <==> fed && size > 0.0 && cost == 0.0
    ensures r == Some(TakeProfit) <==>
      fed && size > 0.0 && cost != 0.0 && (market - cost) / cost >= params.takeProfitThreshold
    ensures r == Some(StopLoss) <==>
      fed && size > 0.0 && cost != 0.0 && (market - cost) / cost < params.takeProfitThreshold
      && (market - cost) / cost <= -params.stopLossThreshold
  {
    if !fed || size <= 0.0 then Some(NoExit)
    else if cost == 0.0 then None
    else
      var pnl := (market - cost) / cost;
      if pnl >= params.takeProfitThreshold then Some(TakeProfit)
      else if pnl <= -params.stopLossThreshold then Some(StopLoss)
      else Some(NoExit)
  }

  /** When the two thresholds overlap, a move past both is reported as a take-profit. */
  lemma TakeProfitFirst(size: real, cost: real, market: real, params: GridParams)
    requires size > 0.0 && cost != 0.0
    requires (market - cost) / cost >= params.takeProfitThreshold
    requires (market - cost) / cost <= -params.stopLossThreshold
    ensures CheckExit(true, size, cost, market, params) == Some(TakeProfit)
  {
  }
}
