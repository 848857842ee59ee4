/** Market analysis (src/strategy/analysis.ts): an RSI-like trend strength over a
    sliding window of closes, and the three-way market classification. The
    volatility, a standard deviation, is an input. */
module Analysis {
  import opened Wrappers

  datatype MarketCondition = Trending | Ranging | Volatile

  datatype MarketAnalysis = MarketAnalysis(volatility: real, trendStrength: real, condition: MarketCondition)

  /** The default window length and the classification thresholds. */
  const DefaultPeriod: nat := 14
  const VolatilityThreshold: real := 1.5
  const TrendStrengthThreshold: real := 55.0

  // ----- the sliding window -----

  /** A JavaScript `slice` bound: negative counts from the end, then clamped. */
  function SliceBound(k: int, len: nat): (r: nat)
    ensures r <= len
    ensures 0 <= k <= len ==> r == k
  {
    if k < 0 then (if len + k < 0 then 0 else len + k) else if k > len then len else k
  }

  /** `xs.slice(start, end)`. */
  function Slice(xs: seq<real>, start: int, end: int): (r: seq<real>)
    ensures 0 <= start <= end <= |xs| ==> r == xs[start..end]
  {
    var s, e := SliceBound(start, |xs|), SliceBound(end, |xs|);
    if s < e then xs[s..e] else []
  }

  /** The closes of bars `max(0, currentIndex - period + 1) .. currentIndex`. */
  function Window(prices: seq<real>, currentIndex: int, period: int): seq<real> {
    var startIndex := if currentIndex - period + 1 > 0 then currentIndex - period + 1 else 0;
    Slice(prices, startIndex, currentIndex + 1)
  }

  // ----- calculateTrendStrength -----

  datatype Averages = Averages(gain: real, loss: real)

  /** Wilder-style smoothing: `(avg * (period - 1) + x) / period`. */
  function Smooth(avg: real, x: real, period: int): (r: real)
    requires period >= 1
    ensures avg >= 0.0 && x >= 0.0 ==> r >= 0.0
  {
    (avg * (period - 1) as real + x) / period as real
  }

  function Gain(diff: real): real {
    if diff > 0.0 then diff else 0.0
  }

  function Loss(diff: real): real {
    if -diff > 0.0 then -diff else 0.0
  }

  /** The smoothed gain and loss after the moves of window `w`; neither is negative. */
  function AveragesOf(w: seq<real>, period: int): (a: Averages)
    requires period >= 1
    ensures a.gain >= 0.0 && a.loss >= 0.0
  {
    if |w| <= 1 then Averages(0.0, 0.0)
    else
      var prev := AveragesOf(w[..|w| - 1], period);
      var diff := w[|w| - 1] - w[|w| - 2];
      Averages(Smooth(prev.gain, Gain(diff), period), Smooth(prev.loss, Loss(diff), period))
  }

  /** `100 - 100 / (1 + RS)`, or 100 without losses: in [0, 100], and 100
      exactly when there was no loss. */
  function StrengthOf(a: Averages): (t: real)
    requires a.gain >= 0.0 && a.loss >= 0.0
    ensures 0.0 <= t <= 100.0
    ensures t == 100.0 <==> a.loss == 0.0
  {
    if a.loss == 0.0 then 100.0
    else
      var rs := a.gain / a.loss;
      assert rs >= 0.0;
      var d := 1.0 + rs;
      assert 100.0 / d <= 100.0 by {
        assert 100.0 / d * d == 100.0;
      }
      assert 100.0 / d > 0.0;
      100.0 - 100.0 / d
  }

  /** `calculateTrendStrength(prices, currentIndex, period)`. */
  function TrendStrength(prices: seq<real>, currentIndex: int, period: int): real
    requires period >= 1
  {
    if |prices| < period then 0.0 else StrengthOf(AveragesOf(Window(prices, currentIndex, period), period))
  }

  method CalculateTrendStrength(prices: seq<real>, currentIndex: int, period: int) returns (t: real)
    requires period >= 1
    ensures t == TrendStrength(prices, currentIndex, period)
  {
    if |prices| < period {
      return 0.0;
    }
    var startIndex := if currentIndex - period + 1 > 0 then currentIndex - period + 1 else 0;
    var windowPrices := Slice(prices, startIndex, currentIndex + 1);
    var avgGain, avgLoss := SmoothedAverages(windowPrices, period);
    if avgLoss == 0.0 {
      return 100.0;
    }
    var rs := avgGain / avgLoss;
    t := 100.0 - 100.0 / (1.0 + rs);
  }

  /** The smoothing loop of `calculateTrendStrength` over the window's moves. */
  method SmoothedAverages(windowPrices: seq<real>, period: int) returns (avgGain: real, avgLoss: real)
    requires period >= 1
    ensures Averages(avgGain, avgLoss) == AveragesOf(windowPrices, period)
  {
    avgGain, avgLoss := 0.0, 0.0;
    if |windowPrices| > 1 {
      for i := 1 to |windowPrices|
        invariant Averages(avgGain, avgLoss) == AveragesOf(windowPrices[..i], period)
      {
        var diff := windowPrices[i] - windowPrices[i - 1];
        avgGain := Smooth(avgGain, Gain(diff), period);
        avgLoss := Smooth(avgLoss, Loss(diff), period);
        assert windowPrices[..i + 1][..i] == windowPrices[..i];
      }
      assert windowPrices[..|windowPrices|] == windowPrices;
    }
  }

  /** The trend strength is 0 on too short a series, else in [0, 100], and 100
      exactly when the window's smoothed loss is 0. */
  lemma TrendStrengthRange(prices: seq<real>, currentIndex: int, period: int)
    requires period >= 1
    ensures |prices| < period ==> TrendStrength(prices, currentIndex, period) == 0.0
    ensures 0.0 <= TrendStrength(prices, currentIndex, period) <= 100.0
    ensures TrendStrength(prices, currentIndex, period) == 100.0
            <==> |prices| >= period && AveragesOf(Window(prices, currentIndex, period), period).loss == 0.0
  {
  }

  /** A window that never falls carries no loss. */
  lemma {:induction false} NoFallNoLoss(w: seq<real>, period: int)
    requires period >= 1
    requires forall k :: 1 <= k < |w| ==> w[k - 1] <= w[k]
    ensures AveragesOf(w, period).loss == 0.0
  {
    if |w| > 1 {
      NoFallNoLoss(w[..|w| - 1], period);
    }
  }

  /** A window of closes that never fall has full trend strength. */
  lemma RisingWindowFullStrength(prices: seq<real>, currentIndex: int, period: int)
    requires period >= 1 && |prices| >= period
    requires var w := Window(prices, currentIndex, period); forall k :: 1 <= k < |w| ==> w[k - 1] <= w[k]
    ensures TrendStrength(prices, currentIndex, period) == 100.0
  {
    NoFallNoLoss(Window(prices, currentIndex, period), period);
  }

  // ----- classification -----

  /** VOLATILE when volatile and weak, else TRENDING when strong (or moderately
      strong and calm), else RANGING. */
  function Classify(volatility: real, trendStrength: real): (c: MarketCondition)
    ensures c == Volatile <==> volatility > VolatilityThreshold && trendStrength < 45.0
    ensures c == Trending <==> !(volatility > VolatilityThreshold && trendStrength < 45.0)
                                && (trendStrength > TrendStrengthThreshold
                                    || (trendStrength > 50.0 && volatility < VolatilityThreshold))
  {
    if volatility > VolatilityThreshold && trendStrength < 45.0 then Volatile
    else if trendStrength > TrendStrengthThreshold || (trendStrength > 50.0 && volatility < VolatilityThreshold)
    then Trending
    else Ranging
  }

  /** A strength above 55 is trending whatever the volatility; a strength of at
      most 50 never is. */
  lemma ClassifyByStrength(volatility: real, trendStrength: real)
    ensures trendStrength > 55.0 ==> Classify(volatility, trendStrength) == Trending
    ensures trendStrength <= 50.0 ==> Classify(volatility, trendStrength) != Trending
    ensures 45.0 <= trendStrength <= 50.0 ==> Classify(volatility, trendStrength) == Ranging
  {
  }

  /** A window of closes that never fall classifies as trending. */
  lemma RisingWindowIsTrending(prices: seq<real>, currentIndex: int, period: int, volatility: real)
    requires period >= 1 && |prices| >= period
    requires var w := Window(prices, currentIndex, period); forall k :: 1 <= k < |w| ==> w[k - 1] <= w[k]
    ensures Classify(volatility, TrendStrength(prices, currentIndex, period)) == Trending
  {
    RisingWindowFullStrength(prices, currentIndex, period);
  }

  /** `analyzeMarket(asset, period, currentIndex)` with the volatility supplied. */
  method AnalyzeMarket(closings: seq<real>, period: int, currentIndex: int, volatility: real)
    returns (r: MarketAnalysis)
    requires period >= 1
    ensures r.volatility == volatility
    ensures r.trendStrength == TrendStrength(closings, currentIndex, period)
    ensures r.condition == Classify(volatility, r.trendStrength)
  {
    var trendStrength := CalculateTrendStrength(closings, currentIndex, period);
    var condition;
    if volatility > VolatilityThreshold && trendStrength < 45.0 {
      condition := Volatile;
    } else if trendStrength > TrendStrengthThreshold || (trendStrength > 50.0 && volatility < VolatilityThreshold) {
      condition := Trending;
    } else {
      condition := Ranging;
    }
    r := MarketAnalysis(volatility, trendStrength, condition);
  }

  /** `getMarketConditions`: the condition of every bar from bar 14 on, with the
      volatility of bar `i` supplied as `volatilities[i]`; earlier entries are
      holes (`None`). */
  method GetMarketConditions(closings: seq<real>, volatilities: seq<real>)
    returns (conditions: seq<Option<MarketCondition>>)
    requires |volatilities| == |closings|
    ensures |conditions| == |closings|
    ensures forall i :: 0 <= i < |closings| && i < DefaultPeriod ==> conditions[i] == None
    ensures forall i :: DefaultPeriod <= i < |closings| ==>
              conditions[i] == Some(Classify(volatilities[i], TrendStrength(closings, i, DefaultPeriod)))
  {
    var n := |closings|;
    var cells := new Option<MarketCondition>[n](_ => None);
    if n > DefaultPeriod {
      for i := DefaultPeriod to n
        invariant forall j :: 0 <= j < n && (j < DefaultPeriod || i <= j) ==> cells[j] == None
        invariant forall j :: DefaultPeriod <= j < i ==>
                    cells[j] == Some(Classify(volatilities[j], TrendStrength(closings, j, DefaultPeriod)))
      {
        var analysis := AnalyzeMarket(closings, DefaultPeriod, i, volatilities[i]);
        cells[i] := Some(analysis.condition);
      }
    }
    conditions := cells[..];
  }
}
