/** The bar-by-bar simulation (`BackTest`, src/backtest.ts): signals become
    synthetic orders in a `TradingEngine`, equity and drawdown are recorded per
    bar, and a buy-and-hold baseline is computed beside it. */
module Backtest {
  import opened Wrappers
  import opened Types
  import opened OrderLog
  import opened Dca
  import opened Ledger
  import opened Engine
  import opened Utils

  /** The configuration a caller passes; `None` is a key left out. */
  datatype UserConfig = UserConfig(
    initialCapital: real,
    leverage: Option<real>,
    makerFee: Option<real>,
    takerFee: Option<real>,
    slippage: Option<real>,
    startDate: Option<int>,
    endDate: Option<int>)

  /** The configuration with every default filled in; dates are milliseconds. */
  datatype Config = Config(
    initialCapital: real,
    leverage: real,
    makerFee: real,
    takerFee: real,
    slippage: real,
    startDate: int,
    endDate: int)

  /** The largest JavaScript date, in milliseconds. */
  const MaxDate: int := 8640000000000000

  function ResolveConfig(c: UserConfig): (r: Config)
    ensures r.initialCapital == c.initialCapital
    ensures c.leverage.None? ==> r.leverage == 1.0
    ensures c.makerFee.None? ==> r.makerFee == 0.0002
    ensures c.takerFee.None? ==> r.takerFee == 0.0005
    ensures c.slippage.None? ==> r.slippage == 0.0001
    ensures c.startDate.None? ==> r.startDate == 0
    ensures c.endDate.None? ==> r.endDate == MaxDate
  {
    Config(c.initialCapital, c.leverage.GetOr(1.0), c.makerFee.GetOr(0.0002), c.takerFee.GetOr(0.0005),
           c.slippage.GetOr(0.0001), c.startDate.GetOr(0), c.endDate.GetOr(MaxDate))
  }

  datatype AssetData = AssetData(dates: seq<int>, closings: seq<real>)

  /** Market data: every dated bar has a closing price. */
  type Asset = a: AssetData | |a.dates| <= |a.closings| witness AssetData([], [])

  datatype Bar = Bar(timestamp: int, close: real)

  /** `signals[i] ?? 0`: no signal past the end of a column. */
  function SignalAt(col: seq<Action>, i: int): (a: Action)
    ensures 0 <= i < |col| ==> a == col[i]
    ensures !(0 <= i < |col|) ==> a == Hold
  {
    Cell(col, i).GetOr(Hold)
  }

  // ----- buildFilteredIndices -----

  /** The indices of the bars dated within [start, end], in bar order. */
  function FilteredIndices(dates: seq<int>, start: int, end: int): (r: seq<nat>)
    ensures forall k :: 0 <= k < |r| ==> r[k] < |dates|
    ensures forall k, l :: 0 <= k < l < |r| ==> r[k] < r[l]
    ensures forall i: nat :: i in r <==> i < |dates| && start <= dates[i] <= end
  {
    if dates == [] then []
    else
      var n := |dates| - 1;
      var prev := FilteredIndices(dates[..n], start, end);
      if start <= dates[n] <= end then prev + [n] else prev
  }

  // ----- updateEquity -----

  /** `Math.max` over the equities of a non-empty point list. */
  function Peak(points: seq<EquityPoint>): real
    requires points != []
  {
    if |points| == 1 then points[0].equity
    else
      var m := Peak(points[..|points| - 1]);
      var last := points[|points| - 1].equity;
      if last > m then last else m
  }

  /** The peak is the largest equity, and one of the points has it. */
  lemma {:induction false} PeakIsMax(points: seq<EquityPoint>)
    requires points != []
    ensures forall k :: 0 <= k < |points| ==> points[k].equity <= Peak(points)
    ensures exists k :: 0 <= k < |points| && points[k].equity == Peak(points)
  {
    if |points| == 1 {
      assert points[0].equity == Peak(points);
    } else {
      var init := points[..|points| - 1];
      PeakIsMax(init);
      assert forall k :: 0 <= k < |init| ==> points[k] == init[k];
      if points[|points| - 1].equity <= Peak(init) {
        var k :| 0 <= k < |init| && init[k].equity == Peak(init);
        assert points[k].equity == Peak(points);
      } else {
        assert points[|points| - 1].equity == Peak(points);
      }
    }
  }

  /** The drawdown of `e` against a peak taken over the earlier points only. */
  function DrawdownAfter(points: seq<EquityPoint>, e: real): (d: real)
    ensures points == [] ==> d == 0.0
    ensures points != [] && Peak(points) > 0.0 ==> d * Peak(points) == Peak(points) - e
    ensures points != [] && Peak(points) <= 0.0 ==> d == 0.0
  {
    var peak := if points != [] then Peak(points) else e;
    if peak > 0.0 then (peak - e) / peak else 0.0
  }

  function WithPoint(points: seq<EquityPoint>, timestamp: int, e: real): seq<EquityPoint> {
    points + [EquityPoint(timestamp, e, DrawdownAfter(points, e))]
  }

  // ----- processSignalsAtIndex and updatePortfolio -----

  function BuyOrder(cfg: Config, symbol: string, bar: Bar, currentEquity: real, id: string): (o: Order)
    ensures bar.close != 0.0 ==> o.size * bar.close == currentEquity * cfg.leverage
    ensures o.priceAvg == bar.close * (1.0 + cfg.slippage)
    ensures o.side == Some(BuySide) && o.posSide == Some(Long) && o.createdAt == bar.timestamp
    ensures o.symbol == symbol && o.id == Some(id)
    ensures o.fee.Some? && o.fee.value == o.size * bar.close * cfg.takerFee
  {
    var size := if bar.close != 0.0 then currentEquity * cfg.leverage / bar.close else 0.0;
    Order(Some(id), symbol, Some(BuySide), Some(Long), size, bar.close * (1.0 + cfg.slippage),
          Some(size * bar.close * cfg.takerFee), bar.timestamp)
  }

  /** The full close of an open long: a SELL of its whole size, priced below
      the close by the slippage, with the taker fee on the notional at the close. */
  function SellOrder(cfg: Config, symbol: string, bar: Bar, size: real, id: string): (o: Order)
    ensures o.side == Some(SellSide) && o.posSide == Some(Long) && o.symbol == symbol
    ensures o.size == size && o.createdAt == bar.timestamp && o.id == Some(id)
    ensures o.priceAvg == bar.close * (1.0 - cfg.slippage)
    ensures cfg.slippage >= 0.0 && bar.close >= 0.0 ==> o.priceAvg <= bar.close
    ensures o.fee == Some(size * bar.close * cfg.takerFee)
  {
    Order(Some(id), symbol, Some(SellSide), Some(Long), size, bar.close * (1.0 - cfg.slippage),
          Some(size * bar.close * cfg.takerFee), bar.timestamp)
  }

  /** A long signal's effect on the log: a BUY sized to the current equity. */
  function LongSignalStep(cfg: Config, symbol: string, log: seq<Order>, bar: Bar, currentEquity: real,
                          longSignal: Action, id: string): seq<Order>
  {
    if longSignal == Buy then Insert(log, BuyOrder(cfg, symbol, bar, currentEquity, id)) else log
  }

  /** A short signal's effect on the log: a full close of the open long, if any. */
  function ShortSignalStep(cfg: Config, symbol: string, log: seq<Order>, bar: Bar, shortSignal: Action,
                           id: string): seq<Order>
  {
    if shortSignal != Buy then log
    else
      match PositionOf(log, symbol, Long, bar.close, cfg.leverage)
      case None => log
      case Some(p) => Insert(log, SellOrder(cfg, symbol, bar, p.size, id))
  }

  /** The log after one bar's signals: a BUY on a long signal, then a full close
      of the open long, if any, on a short signal. */
  function SignalsStep(cfg: Config, symbol: string, log: seq<Order>, bar: Bar, currentEquity: real,
                       longSignal: Action, shortSignal: Action, id: string): (r: seq<Order>)
    ensures |log| <= |r| <= |log| + 2
    ensures longSignal != Buy && shortSignal != Buy ==> r == log
    ensures longSignal != Buy && log == [] ==> r == []
  {
    ShortSignalStep(cfg, symbol, LongSignalStep(cfg, symbol, log, bar, currentEquity, longSignal, id), bar,
                    shortSignal, id)
  }

  /** Inserting one order keeps the log in time order and adds just that order. */
  lemma InsertAdds(log: seq<Order>, o: Order)
    requires SortedByTime(log)
    ensures SortedByTime(Insert(log, o)) && multiset(Insert(log, o)) == multiset(log) + multiset{o}
    ensures |Insert(log, o)| == |log| + 1
  {
    InsertSorted(log, o);
    InsertPermutes(log, o);
    assert |multiset(Insert(log, o))| == |multiset(log)| + 1;
  }

  /** A bar's signals keep the log in time order and only add orders: at most
      a BUY and a SELL, and none without a BUY signal. */
  lemma SignalsStepAddsOrders(cfg: Config, symbol: string, log: seq<Order>, bar: Bar, currentEquity: real,
                              longSignal: Action, shortSignal: Action, id: string)
    requires SortedByTime(log)
    ensures var r := SignalsStep(cfg, symbol, log, bar, currentEquity, longSignal, shortSignal, id);
            && SortedByTime(r)
            && multiset(log) <= multiset(r)
            && |log| <= |r| <= |log| + 2
            && (longSignal != Buy && shortSignal != Buy ==> r == log)
            && (longSignal == Buy ==> BuyOrder(cfg, symbol, bar, currentEquity, id) in multiset(r))
  {
    var buy := BuyOrder(cfg, symbol, bar, currentEquity, id);
    var l1 := LongSignalStep(cfg, symbol, log, bar, currentEquity, longSignal, id);
    if longSignal == Buy {
      InsertAdds(log, buy);
    }
    assert SortedByTime(l1) && multiset(log) <= multiset(l1) && |log| <= |l1| <= |log| + 1;
    var r := ShortSignalStep(cfg, symbol, l1, bar, shortSignal, id);
    if shortSignal == Buy {
      match PositionOf(l1, symbol, Long, bar.close, cfg.leverage)
      case None =>
      case Some(p) =>
        InsertAdds(l1, SellOrder(cfg, symbol, bar, p.size, id));
    }
    assert SortedByTime(r) && multiset(l1) <= multiset(r) && |l1| <= |r| <= |l1| + 1;
  }

  /** `updatePortfolio`: capital plus realized and unrealized PnL, minus the
      closed and open fees once more. */
  function EquityOf(cfg: Config, log: seq<Order>, symbol: string, close: real): (e: real)
    ensures log == [] ==> e == cfg.initialCapital
  {
    var stats := PortfolioOf(AllPositions(log, map[symbol := close], cfg.leverage));
    var pnl := RealizedStatsOf(log);
    cfg.initialCapital + pnl.totalRealizedPnL + stats.totalUnrealizedPnL - pnl.totalFeesClosed - stats.totalFeesOpen
  }

  // ----- the main loop of run -----

  datatype SimState = SimState(log: seq<Order>, equity: seq<EquityPoint>, current: real)

  function BarAt(asset: Asset, i: nat): Bar
    requires i < |asset.dates|
  {
    Bar(asset.dates[i], asset.closings[i])
  }

  /** One filtered bar: signals, then the new equity and its point. */
  function SimStep(cfg: Config, symbol: string, strategy: Strategy, asset: Asset, prev: SimState, i: nat,
                   id: string): (st: SimState)
    requires i < |asset.dates|
    ensures st.equity == WithPoint(prev.equity, asset.dates[i], st.current)
  {
    var bar := BarAt(asset, i);
    var log := SignalsStep(cfg, symbol, prev.log, bar, prev.current,
                           SignalAt(strategy.longStrategy, i), SignalAt(strategy.shortStrategy, i), id);
    var e := EquityOf(cfg, log, symbol, bar.close);
    SimState(log, WithPoint(prev.equity, bar.timestamp, e), e)
  }

  /** The main loop of `run` as a fold: the engine log, the equity points and
      the current equity after the filtered bars at `idx` in turn, starting
      from the log `log0` and the initial capital. */
  function Simulate(cfg: Config, symbol: string, strategy: Strategy, asset: Asset, idx: seq<nat>,
                    log0: seq<Order>, id: string): (st: SimState)
    requires forall k :: 0 <= k < |idx| ==> idx[k] < |asset.dates|
  {
    if idx == [] then SimState(log0, [], cfg.initialCapital)
    else
      SimStep(cfg, symbol, strategy, asset, Simulate(cfg, symbol, strategy, asset, idx[..|idx| - 1], log0, id),
              idx[|idx| - 1], id)
  }

  /** The simulation of one more filtered bar is one more step. */
  lemma SimulatePrefix(cfg: Config, symbol: string, strategy: Strategy, asset: Asset, idx: seq<nat>, j: nat,
                       log0: seq<Order>, id: string)
    requires forall k :: 0 <= k < |idx| ==> idx[k] < |asset.dates|
    requires j < |idx|
    ensures Simulate(cfg, symbol, strategy, asset, idx[..j + 1], log0, id)
         == SimStep(cfg, symbol, strategy, asset, Simulate(cfg, symbol, strategy, asset, idx[..j], log0, id),
                    idx[j], id)
  {
    assert idx[..j + 1][..j] == idx[..j];
  }

  /** Appending the point of bar `last` to points stamped by `init` gives
      points stamped by `init + [last]`. */
  lemma StampsExtend(pts: seq<EquityPoint>, init: seq<nat>, last: nat, dates: seq<int>, e: real)
    requires |pts| == |init| && last < |dates|
    requires forall k :: 0 <= k < |init| ==> init[k] < |dates| && pts[k].timestamp == dates[init[k]]
    ensures var r, idx := WithPoint(pts, dates[last], e), init + [last];
            |r| == |idx| && forall k :: 0 <= k < |idx| ==> r[k].timestamp == dates[idx[k]]
  {
  }

  /** One equity point per filtered bar, stamped with that bar's date, in bar order. */
  lemma {:induction false} SimulatePoints(cfg: Config, symbol: string, strategy: Strategy, asset: Asset,
                                          idx: seq<nat>, log0: seq<Order>, id: string)
    requires forall k :: 0 <= k < |idx| ==> idx[k] < |asset.dates|
    ensures var st := Simulate(cfg, symbol, strategy, asset, idx, log0, id);
            |st.equity| == |idx|
            && forall k :: 0 <= k < |idx| ==> st.equity[k].timestamp == asset.dates[idx[k]]
  {
    if idx != [] {
      var init, last := idx[..|idx| - 1], idx[|idx| - 1];
      assert idx == init + [last];
      SimulatePoints(cfg, symbol, strategy, asset, init, log0, id);
      var prev := Simulate(cfg, symbol, strategy, asset, init, log0, id);
      var st := Simulate(cfg, symbol, strategy, asset, idx, log0, id);
      assert st.equity == WithPoint(prev.equity, asset.dates[last], st.current);
      StampsExtend(prev.equity, init, last, asset.dates, st.current);
    }
  }

  // ----- results -----

  /** `calculateSharpeRatio` up to its square roots: 0 for fewer than two
      points or a zero mean return; otherwise the mean and variance of the
      returns whose ratio mean * sqrt(252) / sqrt(variance) the source reports.
      A zero equity before the last point makes a return non-finite. */
  datatype Sharpe = SharpeZero | SharpeRatio(mean: real, variance: real) | SharpeNotFinite

  /** The bar-to-bar returns, `None` if some divisor is 0. */
  function Returns(points: seq<EquityPoint>): (r: Option<seq<real>>)
    ensures r.Some? && |points| >= 1 ==> |r.value| == |points| - 1
  {
    if |points| < 2 then Some([])
    else
      var n := |points| - 1;
      var prev := Returns(points[..n]);
      var base := points[n - 1].equity;
      if prev.None? || base == 0.0 then None
      else Some(prev.value + [(points[n].equity - base) / base])
  }

  function SumSquares(xs: seq<real>, mean: real): real {
    if xs == [] then 0.0
    else
      var d := xs[|xs| - 1] - mean;
      SumSquares(xs[..|xs| - 1], mean) + d * d
  }

  function SharpeOf(points: seq<EquityPoint>): (s: Sharpe)
    ensures |points| < 2 ==> s == SharpeZero
    ensures |points| >= 2 && Returns(points).None? ==> s == SharpeNotFinite
    ensures |points| >= 2 && Returns(points).Some? ==>
              (s == SharpeZero <==> Sum(Returns(points).value) == 0.0)
    ensures s.SharpeRatio? ==> s.mean != 0.0 && s.variance >= 0.0
    ensures s.SharpeRatio? ==> Returns(points).Some? && s.mean * (|points| - 1) as real == Sum(Returns(points).value)
  {
    if |points| < 2 then SharpeZero
    else
      match Returns(points)
      case None => SharpeNotFinite
      case Some(rs) =>
        var n := |rs| as real;
        var mean := Sum(rs) / n;
        assert mean * n == Sum(rs);
        if mean == 0.0 then SharpeZero
        else
          SumSquaresNonNegative(rs, mean);
          SharpeRatio(mean, SumSquares(rs, mean) / n)
  }

  lemma {:induction false} SumSquaresNonNegative(xs: seq<real>, mean: real)
    ensures SumSquares(xs, mean) >= 0.0
  {
    if xs != [] {
      SumSquaresNonNegative(xs[..|xs| - 1], mean);
      var d := xs[|xs| - 1] - mean;
      assert d * d >= 0.0;
    }
  }

  /** `Math.max` over the drawdowns; `None` (negative infinity) without points. */
  function MaxDrawdown(points: seq<EquityPoint>): (m: Option<real>)
    ensures m.None? <==> points == []
  {
    if points == [] then None
    else
      var prev := MaxDrawdown(points[..|points| - 1]);
      var d := points[|points| - 1].drawdown;
      if prev.None? || d > prev.value then Some(d) else prev
  }

  /** The maximum drawdown bounds every point's drawdown and is one of them. */
  lemma {:induction false} MaxDrawdownIsMax(points: seq<EquityPoint>)
    requires points != []
    ensures forall k :: 0 <= k < |points| ==> points[k].drawdown <= MaxDrawdown(points).value
    ensures exists k :: 0 <= k < |points| && points[k].drawdown == MaxDrawdown(points).value
  {
    var init := points[..|points| - 1];
    if init != [] {
      MaxDrawdownIsMax(init);
      assert forall k :: 0 <= k < |init| ==> points[k] == init[k];
      if points[|points| - 1].drawdown <= MaxDrawdown(init).value {
        var k :| 0 <= k < |init| && init[k].drawdown == MaxDrawdown(init).value;
        assert points[k].drawdown == MaxDrawdown(points).value;
      } else {
        assert points[|points| - 1].drawdown == MaxDrawdown(points).value;
      }
    } else {
      assert points[0].drawdown == MaxDrawdown(points).value;
    }
  }

  /** Buy-and-hold equity at a bar closing at `close`, bought at `p0`. */
  function HoldValue(initial: real, p0: real, close: real): (v: real)
    requires p0 != 0.0
    ensures close == p0 ==> v == initial
  {
    initial * (close / p0)
  }

  /** The baseline equity: `initial * close / p0` at every filtered bar. */
  function BaselinePoints(initial: real, p0: real, asset: Asset, idx: seq<nat>): (r: seq<EquityPoint>)
    requires p0 != 0.0
    requires forall k :: 0 <= k < |idx| ==> idx[k] < |asset.dates|
    ensures |r| == |idx|
  {
    if idx == [] then []
    else
      var prev := BaselinePoints(initial, p0, asset, idx[..|idx| - 1]);
      var i := idx[|idx| - 1];
      WithPoint(prev, asset.dates[i], HoldValue(initial, p0, asset.closings[i]))
  }

  /** The baseline follows the price: `initial * close_i / close_first` at bar i. */
  lemma {:induction false} BaselineTracksPrice(initial: real, p0: real, asset: Asset, idx: seq<nat>)
    requires p0 != 0.0
    requires forall k :: 0 <= k < |idx| ==> idx[k] < |asset.dates|
    ensures var r := BaselinePoints(initial, p0, asset, idx);
            forall k :: 0 <= k < |idx| ==> r[k].equity == HoldValue(initial, p0, asset.closings[idx[k]])
  {
    if idx != [] {
      var init := idx[..|idx| - 1];
      BaselineTracksPrice(initial, p0, asset, init);
      var prev := BaselinePoints(initial, p0, asset, init);
      var r := BaselinePoints(initial, p0, asset, idx);
      forall k | 0 <= k < |idx|
        ensures r[k].equity == HoldValue(initial, p0, asset.closings[idx[k]])
      {
        if k < |init| {
          assert r[k] == prev[k];
          assert idx[k] == init[k];
        }
      }
    }
  }

  datatype Baseline = Baseline(equity: seq<EquityPoint>, netProfit: real, totalReturn: Option<real>)

  /** The buy-and-hold baseline; `None` when the first close is 0 (every value
      non-finite), and a `None` total return when the initial capital is 0. */
  function BaselineOf(initial: real, asset: Asset, idx: seq<nat>): (r: Option<Baseline>)
    requires forall k :: 0 <= k < |idx| ==> idx[k] < |asset.dates|
    ensures idx == [] ==> r == Some(Baseline([], 0.0, Some(0.0)))
    ensures idx != [] ==> (r.None? <==> asset.closings[idx[0]] == 0.0)
    ensures r.Some? ==> |r.value.equity| == |idx|
    ensures r.Some? && idx != [] ==> r.value.netProfit == r.value.equity[|idx| - 1].equity - initial
    ensures r.Some? && idx != [] ==> (r.value.totalReturn.None? <==> initial == 0.0)
  {
    if idx == [] then Some(Baseline([], 0.0, Some(0.0)))
    else
      var p0 := asset.closings[idx[0]];
      if p0 == 0.0 then None
      else
        var points := BaselinePoints(initial, p0, asset, idx);
        var net := points[|points| - 1].equity - initial;
        Some(Baseline(points, net, if initial != 0.0 then Some(net / initial) else None))
  }

  /** With a non-zero capital the baseline's total return times the capital
      is its net profit. */
  lemma BaselineReturn(initial: real, asset: Asset, idx: seq<nat>)
    requires forall k :: 0 <= k < |idx| ==> idx[k] < |asset.dates|
    requires initial != 0.0
    ensures var b := BaselineOf(initial, asset, idx);
            b.Some? && idx != [] ==> b.value.totalReturn.Some? && b.value.totalReturn.value * initial == b.value.netProfit
  {
    var b := BaselineOf(initial, asset, idx);
    if b.Some? && idx != [] {
      var net := b.value.netProfit;
      assert b.value.totalReturn == Some(net / initial);
      assert net / initial * initial == net;
    }
  }

  /** The number of trades with a positive realized PnL. */
  function CountWinning(trades: seq<ClosedTrade>): (n: nat)
    ensures n <= |trades|
  {
    if trades == [] then 0
    else CountWinning(trades[..|trades| - 1]) + (if trades[|trades| - 1].realizedPnl > 0.0 then 1 else 0)
  }

  /** No trade wins exactly when none has a positive PnL, and all win exactly
      when every one has. */
  lemma {:induction false} CountWinningExtremes(trades: seq<ClosedTrade>)
    ensures CountWinning(trades) == 0 <==> forall t :: t in trades ==> t.realizedPnl <= 0.0
    ensures CountWinning(trades) == |trades| <==> forall t :: t in trades ==> t.realizedPnl > 0.0
  {
    if trades != [] {
      var init := trades[..|trades| - 1];
      CountWinningExtremes(init);
      assert trades == init + [trades[|trades| - 1]];
    }
  }

  /** `filter(t => t.realizedPnl > 0).length` is determined by these two
      facts: a single trade counts 1 exactly when it wins, and the count of a
      concatenation is the sum of the counts. */
  lemma {:induction false} CountWinningAppend(a: seq<ClosedTrade>, b: seq<ClosedTrade>)
    ensures CountWinning(a + b) == CountWinning(a) + CountWinning(b)
  {
    if b != [] {
      var init := b[..|b| - 1];
      assert (a + b)[..|a + b| - 1] == a + init;
      CountWinningAppend(a, init);
    } else {
      assert a + b == a;
    }
  }

  lemma CountWinningSingle(t: ClosedTrade)
    ensures CountWinning([t]) == if t.realizedPnl > 0.0 then 1 else 0
  {
    assert [t][..0] == [];
  }

  datatype BackTestResult = BackTestResult(
    netProfit: real,
    grossProfit: real,
    totalFees: real,
    totalTrades: nat,
    winningTrades: nat,
    losingTrades: nat,
    winRate: real,
    maxDrawdown: Option<real>,
    sharpeRatio: Sharpe,
    positions: seq<Position>,
    trades: seq<ClosedTrade>,
    equity: seq<EquityPoint>,
    baselineBuyAndHold: Option<Baseline>,
    outperformanceVsBuyAndHold: Option<real>)

  /** `winning / total`, or 0 without trades. */
  function WinRate(winning: nat, total: nat): (x: real)
    requires winning <= total
    ensures 0.0 <= x <= 1.0
    ensures total > 0 ==> x * total as real == winning as real
    ensures total == 0 ==> x == 0.0
  {
    if total > 0 then
      var x := winning as real / total as real;
      assert x * total as real == winning as real;
      assert x <= 1.0 by {
        if x > 1.0 {
          assert x * total as real > 1.0 * total as real;
        }
      }
      x
    else 0.0
  }

  /** The result object of `run`, assembled from the final statistics. Every
      closed trade is a win or, zero-PnL trades included, a loss. */
  function ResultFrom(finalStats: PortfolioStats, realized: RealizedPnLStats, trades: seq<ClosedTrade>,
                      equity: seq<EquityPoint>, baseline: Option<Baseline>): (r: BackTestResult)
    ensures r.winningTrades + r.losingTrades == r.totalTrades == |r.trades|
    ensures r.trades == trades && r.equity == equity && r.winningTrades == CountWinning(trades)
    ensures 0.0 <= r.winRate <= 1.0
    ensures r.maxDrawdown.None? <==> equity == []
    ensures r.netProfit == r.grossProfit - r.totalFees
    ensures r.outperformanceVsBuyAndHold.Some? <==> baseline.Some?
  {
    var winning := CountWinning(trades);
    var netProfit := realized.totalRealizedPnL - realized.totalFeesClosed - finalStats.totalFeesOpen;
    BackTestResult(
      netProfit,
      realized.totalRealizedPnL,
      realized.totalFeesClosed + finalStats.totalFeesOpen,
      |trades|,
      winning,
      |trades| - winning,
      WinRate(winning, |trades|),
      MaxDrawdown(equity),
      SharpeOf(equity),
      finalStats.positions,
      trades,
      equity,
      baseline,
      if baseline.Some? then Some(netProfit - baseline.value.netProfit) else None)
  }

  /** The result block of `run`, from the finished log and equity list. */
  function ResultOf(cfg: Config, symbol: string, asset: Asset, idx: seq<nat>, log: seq<Order>,
                    equity: seq<EquityPoint>): (r: BackTestResult)
    requires forall k :: 0 <= k < |idx| ==> idx[k] < |asset.dates|
  {
    var lastClose := if idx != [] then asset.closings[idx[|idx| - 1]] else 0.0;
    ResultFrom(PortfolioOf(AllPositions(log, map[symbol := lastClose], cfg.leverage)), RealizedStatsOf(log),
               ClosedTradesOf(log), equity, BaselineOf(cfg.initialCapital, asset, idx))
  }

  const RunError := "Asset and strategy must be set before running backtest"

  /** `run` as a function of the configuration and the engine's log: the
      source's error without data, closings or strategy; otherwise the result
      block over the simulated log and equity, with the log the engine ends with. */
  function RunOf(cfg: Config, asset: Option<Asset>, strategy: Option<Strategy>, symbol: string,
                 log0: seq<Order>, id: string): (r: Result<(BackTestResult, seq<Order>), string>)
  {
    if asset.None? || |asset.value.closings| == 0 || strategy.None? then Failure(RunError)
    else
      var idx := FilteredIndices(asset.value.dates, cfg.startDate, cfg.endDate);
      var st := Simulate(cfg, symbol, strategy.value, asset.value, idx, log0, id);
      Success((ResultOf(cfg, symbol, asset.value, idx, st.log, st.equity), st.log))
  }

  /** The result block reports the closed trades of the log, the equity list
      it is given, the realized PnL as gross profit, the buy-and-hold
      baseline, and a net profit that is gross profit minus fees. */
  lemma ResultOfFields(cfg: Config, symbol: string, asset: Asset, idx: seq<nat>, log: seq<Order>,
                       equity: seq<EquityPoint>)
    requires forall k :: 0 <= k < |idx| ==> idx[k] < |asset.dates|
    ensures var r := ResultOf(cfg, symbol, asset, idx, log, equity);
            && r.trades == ClosedTradesOf(log) && r.equity == equity
            && r.winningTrades + r.losingTrades == r.totalTrades == |ClosedTradesOf(log)|
            && r.grossProfit == RealizedStatsOf(log).totalRealizedPnL
            && r.baselineBuyAndHold == BaselineOf(cfg.initialCapital, asset, idx)
            && r.netProfit == r.grossProfit - r.totalFees
  {
  }

  /** `run` fails, with the source's message, exactly when the data, their
      closings or the strategy are missing. */
  lemma RunOfFails(cfg: Config, asset: Option<Asset>, strategy: Option<Strategy>, symbol: string,
                   log0: seq<Order>, id: string)
    ensures var r := RunOf(cfg, asset, strategy, symbol, log0, id);
            && (r.Failure? <==> asset.None? || |asset.value.closings| == 0 || strategy.None?)
            && (r.Failure? ==> r.error == RunError)
  {
  }

  // ----- properties of the simulation and of its results -----

  /** Without orders nothing is open or realized, so equity is the capital. */
  lemma EmptyLogEquity(cfg: Config, symbol: string, close: real)
    ensures EquityOf(cfg, [], symbol, close) == cfg.initialCapital
  {
    assert Replay([]) == EmptyBook;
    assert AllPositions([], map[symbol := close], cfg.leverage) == [];
    assert GroupKeys([]) == [];
  }

  /** A long-side signal other than BUY never adds an order to an empty log. */
  lemma QuietBarKeepsEmptyLog(cfg: Config, symbol: string, bar: Bar, currentEquity: real,
                              longSignal: Action, shortSignal: Action, id: string)
    requires longSignal != Buy
    ensures SignalsStep(cfg, symbol, [], bar, currentEquity, longSignal, shortSignal, id) == []
  {
    assert Matching([], symbol, Long) == [];
    assert Replay([]) == EmptyBook;
  }

  /** A list whose every equity is `e` has peak `e`. */
  lemma PeakOfConstant(points: seq<EquityPoint>, e: real)
    requires points != []
    requires forall k :: 0 <= k < |points| ==> points[k].equity == e
    ensures Peak(points) == e
  {
    PeakIsMax(points);
  }

  /** Appending the capital to points that all hold the capital, with
      drawdown 0, keeps them so. */
  lemma FlatExtend(pts: seq<EquityPoint>, timestamp: int, e: real)
    requires forall k :: 0 <= k < |pts| ==> pts[k].equity == e && pts[k].drawdown == 0.0
    ensures var r := WithPoint(pts, timestamp, e);
            forall k :: 0 <= k < |r| ==> r[k].equity == e && r[k].drawdown == 0.0
  {
    if pts != [] {
      PeakOfConstant(pts, e);
    }
  }

  /** With no long BUY signal at any filtered bar, the log stays empty and every
      equity point holds the initial capital with drawdown 0. */
  lemma {:induction false} NoBuySignalsKeepsCapital(cfg: Config, symbol: string, strategy: Strategy,
                                                    asset: Asset, idx: seq<nat>, id: string)
    requires forall k :: 0 <= k < |idx| ==> idx[k] < |asset.dates|
    requires forall k :: 0 <= k < |idx| ==> SignalAt(strategy.longStrategy, idx[k]) != Buy
    ensures var st := Simulate(cfg, symbol, strategy, asset, idx, [], id);
            && st.log == [] && st.current == cfg.initialCapital
            && forall k :: 0 <= k < |st.equity| ==>
                 st.equity[k].equity == cfg.initialCapital && st.equity[k].drawdown == 0.0
  {
    if idx != [] {
      var init := idx[..|idx| - 1];
      var i := idx[|idx| - 1];
      NoBuySignalsKeepsCapital(cfg, symbol, strategy, asset, init, id);
      var prev := Simulate(cfg, symbol, strategy, asset, init, [], id);
      var bar := BarAt(asset, i);
      QuietBarKeepsEmptyLog(cfg, symbol, bar, prev.current, SignalAt(strategy.longStrategy, i),
                            SignalAt(strategy.shortStrategy, i), id);
      EmptyLogEquity(cfg, symbol, bar.close);
      FlatExtend(prev.equity, bar.timestamp, cfg.initialCapital);
    }
  }

  /** Each point's drawdown is against the points before it: appending a
      point with `WithPoint` keeps this. */
  predicate DrawdownsAgainstEarlier(pts: seq<EquityPoint>) {
    forall k :: 0 <= k < |pts| ==> pts[k].drawdown == DrawdownAfter(pts[..k], pts[k].equity)
  }

  lemma DrawdownsExtend(pts: seq<EquityPoint>, timestamp: int, e: real)
    requires DrawdownsAgainstEarlier(pts)
    ensures DrawdownsAgainstEarlier(WithPoint(pts, timestamp, e))
  {
    var r := WithPoint(pts, timestamp, e);
    assert r[..|pts|] == pts;
    forall k | 0 <= k < |r|
      ensures r[k].drawdown == DrawdownAfter(r[..k], r[k].equity)
    {
      if k < |pts| {
        assert r[..k] == pts[..k];
      }
    }
  }

  /** Each point's drawdown is taken against the peak of the points before it
      only, and the first point's drawdown is 0. */
  lemma {:induction false} SimulateDrawdowns(cfg: Config, symbol: string, strategy: Strategy, asset: Asset,
                                             idx: seq<nat>, log0: seq<Order>, id: string)
    requires forall k :: 0 <= k < |idx| ==> idx[k] < |asset.dates|
    ensures var pts := Simulate(cfg, symbol, strategy, asset, idx, log0, id).equity;
            && (forall k :: 0 <= k < |pts| ==> pts[k].drawdown == DrawdownAfter(pts[..k], pts[k].equity))
            && (pts != [] ==> pts[0].drawdown == 0.0)
  {
    if idx != [] {
      var init := idx[..|idx| - 1];
      SimulateDrawdowns(cfg, symbol, strategy, asset, init, log0, id);
      var prev := Simulate(cfg, symbol, strategy, asset, init, log0, id);
      var st := Simulate(cfg, symbol, strategy, asset, idx, log0, id);
      assert st.equity == WithPoint(prev.equity, asset.dates[idx[|idx| - 1]], st.current);
      DrawdownsExtend(prev.equity, asset.dates[idx[|idx| - 1]], st.current);
      assert st.equity[..0] == [];
    }
  }

  /** The peak is taken before the current point is counted: a rise from 100
      to 150 is recorded as a drawdown of -0.5. */
  lemma RiseGivesNegativeDrawdown()
    ensures WithPoint(WithPoint([], 0, 100.0), 1, 150.0)[1].drawdown == -0.5
  {
    var one := WithPoint([], 0, 100.0);
    assert Peak(one) == 100.0;
  }

  /** A run's equity points are those of the bars dated within the configured range, in bar order. */
  lemma RunEquityInRange(cfg: Config, symbol: string, strategy: Strategy, asset: Asset,
                         log0: seq<Order>, id: string)
    ensures var idx := FilteredIndices(asset.dates, cfg.startDate, cfg.endDate);
            var pts := Simulate(cfg, symbol, strategy, asset, idx, log0, id).equity;
            && |pts| == |idx|
            && forall k :: 0 <= k < |pts| ==> cfg.startDate <= pts[k].timestamp <= cfg.endDate
  {
    var idx := FilteredIndices(asset.dates, cfg.startDate, cfg.endDate);
    SimulatePoints(cfg, symbol, strategy, asset, idx, log0, id);
    forall k | 0 <= k < |idx|
      ensures cfg.startDate <= asset.dates[idx[k]] <= cfg.endDate
    {
      assert idx[k] in idx;
    }
  }

  /** The returns exist exactly when no equity before the last one is 0. */
  lemma {:induction false} ReturnsDefined(points: seq<EquityPoint>)
    ensures Returns(points).Some? <==> forall k :: 0 <= k < |points| - 1 ==> points[k].equity != 0.0
  {
    if |points| >= 2 {
      var n := |points| - 1;
      var init := points[..n];
      ReturnsDefined(init);
      assert forall k :: 0 <= k < n ==> init[k] == points[k];
    }
  }

  /** Constant equity has returns that sum to 0. */
  lemma {:induction false} ConstantReturnsSumZero(points: seq<EquityPoint>, e: real)
    requires e != 0.0
    requires forall k :: 0 <= k < |points| ==> points[k].equity == e
    ensures Returns(points).Some? && Sum(Returns(points).value) == 0.0
  {
    if |points| >= 2 {
      var n := |points| - 1;
      var init := points[..n];
      assert forall k :: 0 <= k < |init| ==> init[k] == points[k];
      ConstantReturnsSumZero(init, e);
      var rs := Returns(points).value;
      assert rs[..|rs| - 1] == Returns(init).value;
    }
  }

  /** A run whose equity never moves has Sharpe ratio 0. */
  lemma ConstantEquitySharpeZero(points: seq<EquityPoint>, e: real)
    requires e != 0.0
    requires forall k :: 0 <= k < |points| ==> points[k].equity == e
    ensures SharpeOf(points) == SharpeZero
  {
    ConstantReturnsSumZero(points, e);
  }

  /** The baseline starts at the initial capital and, at every filtered bar,
      holds the capital scaled by that close over the first filtered close; its
      net profit is its last value minus the capital. */
  lemma BaselineStartsAtCapital(initial: real, asset: Asset, idx: seq<nat>)
    requires forall k :: 0 <= k < |idx| ==> idx[k] < |asset.dates|
    requires idx != [] && asset.closings[idx[0]] != 0.0
    ensures var b := BaselineOf(initial, asset, idx).value;
            var p0 := asset.closings[idx[0]];
            && |b.equity| == |idx|
            && b.equity[0].equity == initial
            && (forall k :: 0 <= k < |idx| ==> b.equity[k].equity == HoldValue(initial, p0, asset.closings[idx[k]]))
            && b.netProfit == HoldValue(initial, p0, asset.closings[idx[|idx| - 1]]) - initial
  {
    BaselineTracksPrice(initial, asset.closings[idx[0]], asset, idx);
  }

  /** The baseline value is the capital times the price ratio. */
  lemma HoldValueScales(initial: real, p0: real, close: real)
    requires p0 != 0.0
    ensures HoldValue(initial, p0, close) * p0 == initial * close
  {
    assert (close / p0) * p0 == close;
  }

  /** A break-even trade is counted as losing by the backtest, though the
      engine's own statistics count it as neither a win nor a loss. */
  lemma BreakEvenTradeCountsAsLoss(finalStats: PortfolioStats, realized: RealizedPnLStats, t: ClosedTrade,
                                   equity: seq<EquityPoint>, baseline: Option<Baseline>)
    requires t.realizedPnl == 0.0
    ensures ResultFrom(finalStats, realized, [t], equity, baseline).losingTrades == 1
    ensures Summary([t]).lossCount == 0 && Summary([t]).winCount == 0
  {
    assert [t][..0] == [];
  }

  /** The backtest's `grossProfit` is the engine's realized PnL, which is already
      net of the trades' fees; `netProfit` takes the closed fees off once more,
      and the fees of open positions too. */
  lemma NetProfitCountsFeesTwice(cfg: Config, symbol: string, asset: Asset, idx: seq<nat>, log: seq<Order>,
                                 equity: seq<EquityPoint>)
    requires forall k :: 0 <= k < |idx| ==> idx[k] < |asset.dates|
    ensures var r := ResultOf(cfg, symbol, asset, idx, log, equity);
            var ts := ClosedTradesOf(log);
            var openFees := r.totalFees - RealizedStatsOf(log).totalFeesClosed;
            && r.grossProfit == SumGross(ts) - SumFees(ts)
            && r.netProfit
                 == SumGross(ts) - 2.0 * SumFees(ts) - OpenRoundFeesOver(log, GroupKeys(log)) - openFees
  {
    RealizedStatsNetOfFees(log);
  }

  class BackTest {
    const config: Config
    const engine: TradingEngine
    var strategy: Option<Strategy>
    var asset: Option<Asset>
    var assetSymbol: string
    var equity: seq<EquityPoint>

    /** The engine's log is in replay order and uses the configured leverage. */
    ghost predicate Valid()
      reads this, engine
    {
      SortedByTime(engine.View()) && engine.leverage == config.leverage
    }

    /** The initial equity point, stamped `now`, is discarded by `Run`. */
    constructor(userConfig: UserConfig, now: int)
      ensures config == ResolveConfig(userConfig)
      ensures strategy.None? && asset.None? && assetSymbol == "ASSET"
      ensures equity == [EquityPoint(now, userConfig.initialCapital, 0.0)]
      ensures engine.View() == [] && Valid()
    {
      config := ResolveConfig(userConfig);
      engine := new TradingEngine([], ResolveConfig(userConfig).leverage);
      strategy := None;
      asset := None;
      assetSymbol := "ASSET";
      equity := [EquityPoint(now, userConfig.initialCapital, 0.0)];
    }

    method SetStrategy(strategy: Strategy)
      modifies this`strategy
      ensures this.strategy == Some(strategy)
    {
      this.strategy := Some(strategy);
    }

    /** `setData`; callers pass "ASSET" where the source's default applies. */
    method SetData(asset: Asset, symbol: string)
      modifies this`asset, this`assetSymbol
      ensures this.asset == Some(asset) && assetSymbol == symbol
    {
      this.asset := Some(asset);
      assetSymbol := symbol;
    }

    /** Appends a point whose drawdown is taken against the earlier points. */
    method UpdateEquity(timestamp: int, currentEquity: real)
      modifies this`equity
      ensures equity == WithPoint(old(equity), timestamp, currentEquity)
    {
      var peak := if |equity| > 0 then Peak(equity) else currentEquity;
      var drawdown := if peak > 0.0 then (peak - currentEquity) / peak else 0.0;
      equity := equity + [EquityPoint(timestamp, currentEquity, drawdown)];
    }

    method ProcessSignalsAtIndex(bar: Bar, currentEquity: real, longSignal: Action, shortSignal: Action,
                                 id: string)
      requires Valid()
      modifies engine
      ensures Valid()
      ensures engine.View()
        == SignalsStep(config, assetSymbol, old(engine.View()), bar, currentEquity, longSignal, shortSignal, id)
    {
      ProcessLongSignal(bar, currentEquity, longSignal, id);
      ProcessShortSignal(bar, shortSignal, id);
    }

    /** The long half of `processSignalsAtIndex`. */
    method ProcessLongSignal(bar: Bar, currentEquity: real, longSignal: Action, id: string)
      requires Valid()
      modifies engine
      ensures Valid()
      ensures engine.View() == LongSignalStep(config, assetSymbol, old(engine.View()), bar, currentEquity, longSignal, id)
    {
      if longSignal == Buy {
        engine.AddOrder(BuyOrder(config, assetSymbol, bar, currentEquity, id));
      }
    }

    /** The short half of `processSignalsAtIndex`. */
    method ProcessShortSignal(bar: Bar, shortSignal: Action, id: string)
      requires Valid()
      modifies engine
      ensures Valid()
      ensures engine.View() == ShortSignalStep(config, assetSymbol, old(engine.View()), bar, shortSignal, id)
    {
      if shortSignal == Buy {
        var position := engine.GetPosition(assetSymbol, Long, bar.close);
        if position.Some? {
          engine.AddOrder(SellOrder(config, assetSymbol, bar, position.value.size, id));
        }
      }
    }

    method UpdatePortfolio(bar: Bar) returns (newEquity: real)
      requires Valid()
      modifies engine
      ensures Valid() && engine.View() == old(engine.View())
      ensures newEquity == EquityOf(config, engine.View(), assetSymbol, bar.close)
    {
      var stats := engine.GetPortfolioStats(map[assetSymbol := bar.close]);
      var pnlStats := engine.GetRealizedPnLStats();
      newEquity := config.initialCapital + pnlStats.totalRealizedPnL + stats.totalUnrealizedPnL
        - pnlStats.totalFeesClosed - stats.totalFeesOpen;
    }

    method BuildFilteredIndices(dates: seq<int>) returns (res: seq<nat>)
      ensures res == FilteredIndices(dates, config.startDate, config.endDate)
    {
      res := [];
      var i := 0;
      while i < |dates|
        invariant 0 <= i <= |dates|
        invariant res == FilteredIndices(dates[..i], config.startDate, config.endDate)
      {
        assert dates[..i + 1][..i] == dates[..i];
        if config.startDate <= dates[i] <= config.endDate {
          res := res + [i];
        }
        i := i + 1;
      }
      assert dates[..|dates|] == dates;
    }

    /** The buy-and-hold loop of `run`. */
    static method BaselineEquity(initial: real, p0: real, asset: Asset, idx: seq<nat>) returns (bh: seq<EquityPoint>)
      requires p0 != 0.0
      requires forall k :: 0 <= k < |idx| ==> idx[k] < |asset.dates|
      ensures bh == BaselinePoints(initial, p0, asset, idx)
    {
      bh := [];
      var j := 0;
      while j < |idx|
        invariant 0 <= j <= |idx|
        invariant bh == BaselinePoints(initial, p0, asset, idx[..j])
      {
        assert idx[..j + 1][..j] == idx[..j];
        var i := idx[j];
        var e := HoldValue(initial, p0, asset.closings[i]);
        bh := WithPoint(bh, asset.dates[i], e);
        j := j + 1;
      }
      assert idx[..|idx|] == idx;
    }

    /** The buy-and-hold block of `run`. */
    static method BuyAndHold(initial: real, data: Asset, idx: seq<nat>) returns (baseline: Option<Baseline>)
      requires forall k :: 0 <= k < |idx| ==> idx[k] < |data.dates|
      ensures baseline == BaselineOf(initial, data, idx)
    {
      if |idx| == 0 {
        baseline := Some(Baseline([], 0.0, Some(0.0)));
      } else {
        var p0 := data.closings[idx[0]];
        if p0 == 0.0 {
          baseline := None;
        } else {
          var bhEquity := BaselineEquity(initial, p0, data, idx);
          var bhNet := bhEquity[|bhEquity| - 1].equity - initial;
          baseline := Some(Baseline(bhEquity, bhNet, if initial != 0.0 then Some(bhNet / initial) else None));
        }
      }
    }

    /** One filtered bar of `run`'s loop: its signals, the new equity and its point. */
    method SimulateBar(signals: Strategy, data: Asset, i: nat, id: string, currentEquity: real)
      returns (newEquity: real)
      requires Valid() && i < |data.dates|
      modifies this`equity, engine
      ensures Valid()
      ensures SimStep(config, assetSymbol, signals, data, SimState(old(engine.View()), old(equity), currentEquity), i, id)
              == SimState(engine.View(), equity, newEquity)
    {
      var bar := Bar(data.dates[i], data.closings[i]);
      ProcessSignalsAtIndex(bar, currentEquity, SignalAt(signals.longStrategy, i),
                            SignalAt(signals.shortStrategy, i), id);
      newEquity := UpdatePortfolio(bar);
      UpdateEquity(bar.timestamp, newEquity);
    }

    /** The bar loop of `run`: the equity list restarts empty and each filtered
        bar adds its orders to the engine and its point to the list. */
    method SimulateBars(signals: Strategy, data: Asset, filteredIndices: seq<nat>, id: string)
      returns (currentEquity: real)
      requires Valid()
      requires forall k :: 0 <= k < |filteredIndices| ==> filteredIndices[k] < |data.dates|
      modifies this`equity, engine
      ensures Valid()
      ensures var st := Simulate(config, assetSymbol, signals, data, filteredIndices, old(engine.View()), id);
              engine.View() == st.log && equity == st.equity && currentEquity == st.current
    {
      currentEquity := config.initialCapital;
      equity := [];
      ghost var log0 := engine.View();
      var j := 0;
      while j < |filteredIndices|
        invariant 0 <= j <= |filteredIndices|
        invariant Valid()
        invariant Simulate(config, assetSymbol, signals, data, filteredIndices[..j], log0, id)
                  == SimState(engine.View(), equity, currentEquity)
      {
        SimulatePrefix(config, assetSymbol, signals, data, filteredIndices, j, log0, id);
        currentEquity := SimulateBar(signals, data, filteredIndices[j], id, currentEquity);
        j := j + 1;
      }
      assert filteredIndices[..|filteredIndices|] == filteredIndices;
    }

    /** The result block of `run`, read from the engine and the equity list. */
    method Report(data: Asset, filteredIndices: seq<nat>) returns (r: BackTestResult)
      requires Valid()
      requires forall k :: 0 <= k < |filteredIndices| ==> filteredIndices[k] < |data.dates|
      modifies engine
      ensures Valid() && engine.View() == old(engine.View())
      ensures r == ResultOf(config, assetSymbol, data, filteredIndices, engine.View(), equity)
    {
      ghost var log := engine.View();
      var lastClose := if |filteredIndices| > 0 then data.closings[filteredIndices[|filteredIndices| - 1]] else 0.0;
      var finalStats := engine.GetPortfolioStats(map[assetSymbol := lastClose]);
      var realizedStats := engine.GetRealizedPnLStats();
      var trades := engine.GetClosedTrades();
      assert engine.View() == log;
      assert finalStats == PortfolioOf(AllPositions(log, map[assetSymbol := lastClose], config.leverage));
      assert realizedStats == RealizedStatsOf(log);
      assert trades == ClosedTradesOf(log);
      var baseline := BuyAndHold(config.initialCapital, data, filteredIndices);
      r := ResultFrom(finalStats, realizedStats, trades, equity, baseline);
    }

    /** `run`; `id` stands for the `Date.now()` order ids. On success the
        equity field holds the result's equity list and the engine the final log. */
    method Run(id: string) returns (r: Result<BackTestResult, string>)
      requires Valid()
      modifies this`equity, engine
      ensures Valid()
      ensures var spec := RunOf(config, asset, strategy, assetSymbol, old(engine.View()), id);
              && (spec.Failure? ==> r == Failure(spec.error) && equity == old(equity)
                                    && engine.View() == old(engine.View()))
              && (spec.Success? ==> r == Success(spec.value.0) && equity == spec.value.0.equity
                                    && engine.View() == spec.value.1)
    {
      if asset.None? || |asset.value.closings| == 0 || strategy.None? {
        return Failure(RunError);
      }
      var data := asset.value;
      var filteredIndices := BuildFilteredIndices(data.dates);
      var _ := SimulateBars(strategy.value, data, filteredIndices, id);
      var result := Report(data, filteredIndices);
      r := Success(result);
    }
  }
}
