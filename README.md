# trade-backtest in Dafny

This project models the core of `trade-backtest`, a TypeScript toolkit for backtesting trading signals. It has three parts.

- **The trading engine** (`TradingEngine`) keeps an in-memory log of executed orders. It sorts the log by creation time only when a query needs it, and the sort is stable. It replays the log per (symbol, position side) into one DCA accumulator: a weighted-average entry, with opening fees that shrink pro rata as the position is closed. From that replay it answers:
  - open positions and portfolio statistics;
  - the realized statistics of every round (a round runs from flat to flat);
  - the list of closed trades.
- **The bar-by-bar simulation** (`BackTest`) turns a strategy's long and short signal columns into synthetic orders, one bar at a time. It records equity and drawdown per bar. Finally it sums up profits, fees, trades, the maximum drawdown, the Sharpe ratio and a buy-and-hold baseline.
- **The signal strategies** build signal columns:
  - buy-and-hold;
  - RSI and MACD thresholds, with the indicator lines passed in as parameters;
  - a trailing stop;
  - the ROI / DCA wrapper `roiStrategy`;
  - combinators (AND, OR, entry/exit) and `combineWithRoi`;
  - `macdMomentumDcaStrategy`;
  - the market analysis (trend strength and classification).

Numbers are Dafny `real`s. An absent optional field is an `Option`. JavaScript arithmetic that can leave the reals is a datatype case of its own: the IEEE results of `roiStrategy` and the Sharpe ratio's non-finite case. `seededRandom` uses the 32-bit integer semantics of JavaScript, written out.

## Model

| member | source | states |
|---|---|---|
| Types.ActionValue | src/types.ts:8-12 | A signal is -1, 0 or 1, and 1 exactly for BUY |
| Types.Cell | src/strategy/combined.ts:22-30 | Reading a signal column past its end gives no action, as `undefined` compares unequal to every action |
| Types.Mirror | src/strategy/basic.ts:392-397 | The short column of a symmetric strategy swaps BUY and SELL and keeps HOLD, in both directions |
| OrderLog.SortByTimeIsSortedPermutation | src/engine/tradingEngine.ts:40-45 | The lazy sort returns the log sorted by creation time and as a permutation of it |
| OrderLog.SortByTimeIsStable | src/engine/tradingEngine.ts:40-45 | Orders with equal timestamps keep their insertion order, since `Array.prototype.sort` is stable |
| OrderLog.InsertPermutes | src/engine/tradingEngine.ts:34-45 | Adding an order to the log adds exactly that order |
| OrderLog.InsertSorted | src/engine/tradingEngine.ts:34-45 | Inserting into a time-sorted log keeps it sorted |
| OrderLog.InsertKeepsTimeOrder | src/engine/tradingEngine.ts:34-45 | Inserting keeps the order among same-time orders, with the new one last |
| OrderLog.InsertLatest | src/engine/tradingEngine.ts:34-45 | An order no older than every logged order goes at the end of the replay |
| OrderLog.SortByTimeOfSorted | src/engine/tradingEngine.ts:40-45 | Sorting a log that is already sorted changes nothing |
| OrderLog.SortAfterAppend | src/engine/tradingEngine.ts:34-45 | Appending to a sorted log and then sorting is one stable insertion |
| EngineMath.OpenSideFor | src/engine/tradingEngine.ts:443-447 | A long is opened by BUY orders and a short by SELL orders, and nothing else |
| EngineMath.ProrataFees | src/engine/tradingEngine.ts:226-228 | The fee share is `fees * closeSize / qty`; it is 0 without quantity and never more than the fees |
| EngineMath.ProrataFeesSplit | src/engine/tradingEngine.ts:226-228 | The share of a closed part plus the share of the rest are the whole of the remaining fees |
| EngineMath.ComputeRealized | src/engine/tradingEngine.ts:230-243 | Net PnL is gross minus both fee parts; a close is a gross gain exactly when the price moved in the position's favour; closing at the average is break-even |
| EngineMath.RealizedSidesOpposite | src/engine/tradingEngine.ts:230-243 | A long gains exactly what a short of the same size loses |
| EngineMath.MarginRequired | src/engine/tradingEngine.ts:64-97 | Margin times leverage is the notional, and without a positive leverage the margin is the notional |
| EngineMath.LiquidationPrice | src/engine/tradingEngine.ts:101-115 | At the liquidation price the position's loss equals its margin net of fees: below entry for a long, above it for a short, and 0 in the degenerate cases |
| Dca.NewAcc | src/engine/tradingEngine.ts:449-464 | A new accumulator is flat and valid, for its key |
| Dca.WeightedMeanBetween | src/engine/tradingEngine.ts:483-491 | A weighted mean of two prices lies between them |
| Dca.ApplyOpen | src/engine/tradingEngine.ts:483-491 | Opening adds the size. The new average is the size-weighted mean of the old average and the price, and lies between them; from flat it is the price. Fees add up, and the first opening time is kept. The accumulator invariant is preserved |
| Dca.ApplyClose | src/engine/tradingEngine.ts:493-504 | Closing removes at most the open quantity. The fees shrink in proportion to the quantity. A position left flat loses its average and opening time, and one partly closed keeps them |
| Dca.EnsureAcc | src/engine/tradingEngine.ts:449-464 | After the call the key has an accumulator. An existing accumulator is kept and the book is unchanged; a missing key gets a flat new accumulator, appended to the key order |
| Dca.EnsureAccValid | src/engine/tradingEngine.ts:449-464 | The book invariant is kept. A missing key is created flat (`NewAcc`, quantity 0) and appended to the key order; an existing one leaves the book as it was; no other accumulator changes |
| Dca.ApplyOrderDca | src/engine/tradingEngine.ts:466-481 | An order failing the field or price/size checks leaves the book unchanged. A usable order gives its key an accumulator, and no other key's accumulator changes |
| Dca.SkipsUnusableOrders | src/engine/tradingEngine.ts:467-471 | An order without symbol, side or position side, or with a non-positive price or size, is skipped; any other order gives its key an accumulator |
| Dca.OpenStep | src/engine/tradingEngine.ts:473-477 | An order on its key's opening side adds to that key's accumulator, created flat if the key is new |
| Dca.ApplyOrderDcaValid | src/engine/tradingEngine.ts:466-481 | Applying any order, skipped or not, keeps every accumulator valid and the keys distinct |
| Dca.ReplayValid | src/engine/tradingEngine.ts:118-123 | Replaying any log keeps every accumulator's quantity non-negative and its fields consistent |
| Dca.Matching | src/engine/tradingEngine.ts:54-56 | An order is kept exactly when it is in the log with the symbol and the position side; nothing is added |
| Dca.MatchingAll | src/engine/tradingEngine.ts:54-56 | A log whose every order has the symbol and side is kept whole |
| Dca.LookupApply | src/engine/tradingEngine.ts:466-481 | One order touches only the accumulator of its own key |
| Dca.ReplayLookup | src/engine/tradingEngine.ts:48-62 | The full replay seen at one key is the replay of that key alone |
| Dca.ReplayKeyMatching | src/engine/tradingEngine.ts:54-62 | Filtering the log to the key first does not change that key's replay |
| Dca.Snapshot | src/engine/tradingEngine.ts:64-97 | A position's unrealized PnL is what closing its whole quantity now would realize, net of its attached fees; size, entry and fees come from the accumulator |
| Dca.PositionOfAgreesWithReplay | src/engine/tradingEngine.ts:48-98 | `getPosition` reports a position exactly when the key's accumulator in the full replay has a positive quantity, and reports that accumulator |
| Dca.PortfolioCounts | src/engine/tradingEngine.ts:126-166 | Every position is counted once, as long or as short; the per-symbol rollup holds exactly the positions' symbols |
| Dca.PositionsOfAreOpen | src/engine/tradingEngine.ts:506-549 | Every snapshot built from a valid book is open, on its side's opening side, with an opening time |
| Dca.AllPositionsAreOpen | src/engine/tradingEngine.ts:118-123 | Every rebuilt position has a positive size and its side's opening side |
| Dca.TwoBuysBook | tests/tradingEngine.test.ts:7-15 | Two BUYs of 1 on one long key at 100 and 110 leave an accumulator of 2 at an average of 105 |
| Dca.ReplayTwo | src/engine/tradingEngine.ts:58 | Replaying two orders applies them in log order |
| Dca.TwoBuysAverage | tests/tradingEngine.test.ts:7-15 | Two BUYs of 1 at 100 and 110 give a long of size 2 at entry 105 |
| Ledger.MaxOpt | src/engine/tradingEngine.ts:194-210 | The running best is at least every value seen and equals one of them |
| Ledger.MinOpt | src/engine/tradingEngine.ts:194-210 | The running worst is at most every value seen and equals one of them |
| Ledger.CloseRound | src/engine/tradingEngine.ts:300-312 | A finished round is counted once: a win when positive, a loss when negative, neither at 0 |
| Ledger.CloseFill | src/engine/tradingEngine.ts:280-299 | A close fills at most the open quantity and the order's size, and its net PnL is gross minus fees |
| Ledger.StatsStepCases | src/engine/tradingEngine.ts:272-325 | An invalid order, or a close with nothing open, changes nothing. An opening order only grows the lot. A close shrinks the lot by its fill and books its fees as closed; it counts one finished round, and resets the round PnL, exactly when the lot becomes flat |
| Ledger.TradesStepCases | src/engine/tradingEngine.ts:370-432 | An invalid order, or a close with nothing open, changes nothing. An opening order only grows the lot. A close shrinks the lot by its fill and appends exactly one trade when the lot becomes flat with an opening time; that trade runs from the opening time to the closing order's time. Trades are never removed |
| Ledger.CloseSplitsLot | src/engine/tradingEngine.ts:280-313 | The closed part and the rest add up to the lot's quantity and its fees |
| Ledger.TradesRunInv | src/engine/tradingEngine.ts:351-434 | Throughout the closed-trade replay, every opened unit and every opening fee is in a closed trade, in the open round or still open |
| Ledger.FlatGroupAccountsForAll | src/engine/tradingEngine.ts:351-434 | Once a group is flat, its closed trades hold all opened quantity and all opening fees, and each trade is net of its fees |
| Ledger.StatsRunAgree | src/engine/tradingEngine.ts:245-337 | The statistics replay agrees with the closed-trade replay: counts, PnL, wins, losses, extremes and holding time are those of the closed trades. The closed fees add what an open round has already booked |
| Ledger.GroupKeys | src/engine/tradingEngine.ts:213-224 | The group keys are distinct, in order of first appearance |
| Ledger.GroupOf | src/engine/tradingEngine.ts:213-224 | A group holds only orders with symbol and sides of its own key |
| Ledger.GroupKeysComplete | src/engine/tradingEngine.ts:213-224 | A key is a group key exactly when some order with symbol and sides has it; then its group is non-empty |
| Ledger.Finalize | src/engine/tradingEngine.ts:194-210 | Win rate, average profit and average holding time are the totals over the trade count, all 0 without trades; the infinities become 0 |
| Ledger.SummaryAppend | src/engine/tradingEngine.ts:181-193 | Summarising two trade lists and merging is summarising their concatenation |
| Ledger.AggregateMatchesTrades | src/engine/tradingEngine.ts:169-211 | The merged group statistics are the summary of the concatenated closed trades, plus the fees of open rounds |
| Ledger.RealizedStatsMatchClosedTrades | src/engine/tradingEngine.ts:169-211 | `getRealizedPnLStats` and `getClosedTrades` agree over the whole log, up to the fees booked by rounds still open |
| Ledger.SummaryCounts | src/engine/tradingEngine.ts:300-312 | The trade count is the number of trades. Wins plus losses are at most that. Best and worst exist exactly when there is a trade, and they bound every trade's PnL |
| Ledger.FinalizeBounds | src/engine/tradingEngine.ts:194-210 | The finalized win rate lies in [0, 1], worst is at most best, and everything is 0 without trades |
| Ledger.RealizedStatsBounds | src/engine/tradingEngine.ts:169-211 | The realized statistics are well formed: one trade per closed trade, a win rate in [0, 1], worst at most best |
| Ledger.BuyThenSellFill | tests/tradingEngine.test.ts:21-32 | BUY 1 at 100 then SELL 1 at 120 with fee 0.1 fills 1 at a net 19.9 and leaves the lot flat |
| Ledger.BuyThenSellRealizes | tests/tradingEngine.test.ts:21-32 | That sequence is one closed trade of size 1 and PnL 19.9, and the statistics total 19.9 |
| Ledger.TradesOverNet | src/engine/tradingEngine.ts:408-430 | Every closed trade's net PnL is its gross PnL minus its opening and closing fees |
| Ledger.SummaryOfNetTrades | src/engine/tradingEngine.ts:300-312 | The PnL total of net trades already has their fees taken off, and the closed fees are exactly those fees |
| Ledger.RealizedStatsNetOfFees | src/engine/tradingEngine.ts:169-211 | The reported realized PnL is gross minus fees, and the reported closed fees are those fees plus the open rounds' fees |
| Engine.TradingEngine.constructor | src/engine/tradingEngine.ts:28-31 | The given orders are kept as they are and flagged sorted |
| Engine.TradingEngine.AddOrder | src/engine/tradingEngine.ts:34-38 | The order is appended and the flag cleared; the replay order is the stable sort with the new order inserted, still sorted, holding exactly one more order |
| Engine.TradingEngine.EnsureSorted | src/engine/tradingEngine.ts:40-45 | The log becomes the replay order and is flagged sorted; a sorted log is left as it is, an unsorted one becomes a time-sorted permutation |
| Engine.TradingEngine.GetPosition | src/engine/tradingEngine.ts:48-98 | The position is the snapshot of the key's accumulator in the replay when it holds a positive quantity, else none |
| Engine.TradingEngine.FilterMatching | src/engine/tradingEngine.ts:54-56 | The loop returns `Matching`: an order is kept exactly when it is in the log with the symbol and position side |
| Engine.TradingEngine.ReplayOrders | src/engine/tradingEngine.ts:118-123 | The loop leaves the book of the replay, and that book is valid |
| Engine.TradingEngine.BuildPositionsFromAcc | src/engine/tradingEngine.ts:506-549 | One snapshot per open accumulator, in key order, priced from the map (0 when the price is missing) |
| Engine.TradingEngine.RebuildAllPositions | src/engine/tradingEngine.ts:118-123 | Returns every open position of the replay, each with a positive size and its side's opening side |
| Engine.TradingEngine.GetPortfolioStats | src/engine/tradingEngine.ts:126-166 | The statistics aggregate the rebuilt positions; long plus short equals the count of positions |
| Engine.TradingEngine.AggregatePositions | src/engine/tradingEngine.ts:138-165 | The rollup loop computes the portfolio aggregate of the positions |
| Engine.TradingEngine.GroupOrdersBySymbolSide | src/engine/tradingEngine.ts:213-224 | Every order with symbol and sides is in the group of its key, in log order, and the keys are in order of first appearance |
| Engine.TradingEngine.ComputeRealizedStatsForGroup | src/engine/tradingEngine.ts:245-337 | The loop computes the group's statistics replay |
| Engine.TradingEngine.ComputeClosedTradesForGroup | src/engine/tradingEngine.ts:351-434 | The loop computes the group's closed-trade replay, stamped with the group's symbol |
| Engine.TradingEngine.GetRealizedPnLStats | src/engine/tradingEngine.ts:169-211 | The stats are those of the sorted log; the trade count is the number of closed trades and the win rate lies in [0, 1] |
| Engine.TradingEngine.GetClosedTrades | src/engine/tradingEngine.ts:340-349 | Returns the closed trades of every group, group after group, from the sorted log |
| Engine.GroupOfUnseen | src/engine/tradingEngine.ts:213-224 | Appending an order changes only the group of its own key |
| Backtest.ResolveConfig | src/backtest.ts:22-31 | Each setting left out takes its default: leverage 1, fees 0.0002 / 0.0005, slippage 0.0001, and dates from 0 to the largest date |
| Backtest.SignalAt | src/backtest.ts:165-176 | A signal past the end of a column is HOLD |
| Backtest.FilteredIndices | src/backtest.ts:238-248 | Exactly the indices of bars dated in [start, end], strictly increasing |
| Backtest.PeakIsMax | src/backtest.ts:59-65 | The peak is the largest recorded equity and one of them |
| Backtest.DrawdownAfter | src/backtest.ts:59-65 | The first point's drawdown is 0. Against a positive peak of the earlier points, drawdown times peak is peak minus equity; a non-positive peak gives 0 |
| Backtest.BuyOrder | src/backtest.ts:95-108 | The BUY is sized so that its notional at the close is the equity times the leverage, priced up by slippage, stamped with the bar, for the given symbol and id, with the taker fee on its notional at the close |
| Backtest.SignalsStepAddsOrders | src/backtest.ts:89-130 | A bar's signals keep the log sorted and only add orders, at most two. Without a BUY signal nothing is added, and a long BUY signal adds its sized BUY order |
| Backtest.SimStep | src/backtest.ts:165-176 | Each filtered bar appends one equity point, whose drawdown is against the earlier points |
| Backtest.SimulatePoints | src/backtest.ts:164-176 | The run records one point per filtered bar, stamped with that bar's date, in bar order |
| Backtest.Returns | src/backtest.ts:71-76 | There is one return per step between points |
| Backtest.SharpeOf | src/backtest.ts:67-87 | The ratio is 0 with fewer than two points. With at least two it is non-finite exactly when a base equity is 0; otherwise it is 0 exactly when the returns sum to 0 (a zero mean). A ratio has mean times the return count equal to the returns' sum, and a non-negative variance |
| Backtest.MaxDrawdown | src/backtest.ts:221 | There is no maximum (negative infinity in the source) exactly when there are no points |
| Backtest.MaxDrawdownIsMax | src/backtest.ts:221 | The maximum drawdown bounds every point's drawdown and is one of them |
| Backtest.HoldValue | src/backtest.ts:191-200 | Holding at an unchanged price is worth the capital |
| Backtest.BaselinePoints | src/backtest.ts:187-201 | One baseline point per filtered bar |
| Backtest.BaselineTracksPrice | src/backtest.ts:187-201 | The baseline at each bar is the capital scaled by that close over the first filtered close |
| Backtest.CountWinning | src/backtest.ts:184 | The winners are at most the trades |
| Backtest.CountWinningExtremes | src/backtest.ts:184 | No trade wins exactly when none has a positive PnL; all win exactly when every one has |
| Backtest.CountWinningSingle | src/backtest.ts:184 | A single trade counts 1 exactly when its PnL is positive |
| Backtest.CountWinningAppend | src/backtest.ts:184 | The count over a concatenation is the sum of the counts; with the single-trade case this pins it to the length of the positive-PnL filter |
| Backtest.ResultFrom | src/backtest.ts:210-236 | Winning plus losing trades are all the trades, and the winners are the positive-PnL count. The win rate lies in [0, 1]. A maximum drawdown exists exactly when equity was recorded. The net profit is gross profit minus total fees, and the comparison with buy-and-hold exists exactly when the baseline does |
| Backtest.WinRate | src/backtest.ts:220 | The win rate lies in [0, 1]; with trades it is winners over trades, without trades it is 0 |
| Backtest.SimulatePrefix | src/backtest.ts:165-176 | Simulating one more filtered bar is one more bar step from the state the earlier bars left |
| Backtest.SellOrder | src/backtest.ts:116-127 | The full close is a LONG SELL of the given size at the bar's time, priced below the close by the slippage, with the taker fee on the notional at the close |
| Backtest.SignalsStep | src/backtest.ts:89-130 | A bar adds at most two orders to the log, and none without a BUY signal on either side |
| Backtest.EquityOf | src/backtest.ts:132-144 | With no orders the equity is the initial capital |
| Backtest.BaselineOf | src/backtest.ts:186-208 | No filtered bars give an empty baseline with profit and return 0. A first close of 0 gives no baseline. Otherwise one point per bar, a profit of last minus capital, and a return that is absent exactly when the capital is 0 |
| Backtest.BaselineReturn | src/backtest.ts:202-208 | With a non-zero capital the return times the capital is the baseline's net profit |
| Backtest.ResultOfFields | src/backtest.ts:178-236 | The result carries the engine's closed trades and the equity list. Winners plus losers are the trades. The gross profit is the realized PnL, the net profit is gross minus total fees, and the baseline is buy-and-hold over the filtered bars |
| Backtest.RunOfFails | src/backtest.ts:147-153 | The run fails, with the source's message, exactly when the data, its closings or the strategy is missing |
| Backtest.EmptyLogEquity | src/backtest.ts:132-144 | With no orders the equity is the initial capital |
| Backtest.QuietBarKeepsEmptyLog | src/backtest.ts:95-129 | Without a long BUY nothing is opened, so a short signal on an empty log adds nothing |
| Backtest.NoBuySignalsKeepsCapital | src/backtest.ts:147-176 | With no long BUY signal in range the log stays empty, and every point holds the capital with drawdown 0 |
| Backtest.SimulateDrawdowns | src/backtest.ts:59-65 | Every point's drawdown is against the peak of the earlier points only, and the first drawdown is 0 |
| Backtest.RiseGivesNegativeDrawdown | src/backtest.ts:59-65 | A rise from 100 to 150 is recorded as a drawdown of -0.5, because the peak leaves out the current point |
| Backtest.RunEquityInRange | src/backtest.ts:160-176 | A run's equity points are those of the bars dated in the configured range |
| Backtest.ReturnsDefined | src/backtest.ts:71-76 | The returns are finite exactly when no equity before the last is 0 |
| Backtest.ConstantReturnsSumZero | src/backtest.ts:71-79 | Constant non-zero equity has returns summing to 0 |
| Backtest.ConstantEquitySharpeZero | src/backtest.ts:79-86 | Equity that never moves has a Sharpe ratio of 0 |
| Backtest.BaselineStartsAtCapital | src/backtest.ts:187-208 | The baseline starts at the capital and tracks the price ratio; its net profit is the last value minus the capital |
| Backtest.HoldValueScales | src/backtest.ts:194 | The baseline value times the first close is the capital times the close |
| Backtest.BreakEvenTradeCountsAsLoss | src/backtest.ts:184-219 | A zero-PnL trade counts as one losing trade in the result, though the engine counts it as neither a win nor a loss |
| Backtest.NetProfitCountsFeesTwice | src/backtest.ts:210-216 | `grossProfit` is already net of trade fees, so `netProfit` deducts the closed fees a second time, plus the open-round and open-position fees |
| Backtest.BackTest.constructor | src/backtest.ts:22-40 | The defaults fill the configuration; the engine is empty with the configured leverage; equity holds one point of the capital at `now` |
| Backtest.BackTest.SetStrategy | src/backtest.ts:43-46 | The strategy is set |
| Backtest.BackTest.SetData | src/backtest.ts:53-57 | The asset and its symbol are set |
| Backtest.BackTest.UpdateEquity | src/backtest.ts:59-65 | Appends one point whose drawdown is against the earlier points |
| Backtest.BackTest.ProcessSignalsAtIndex | src/backtest.ts:89-130 | The engine's log becomes the bar's signal step: a sized BUY on a long signal, then a full close of the open long on a short signal |
| Backtest.BackTest.ProcessLongSignal | src/backtest.ts:95-108 | The long half of the step |
| Backtest.BackTest.ProcessShortSignal | src/backtest.ts:110-129 | The short half of the step: a SELL of the whole open long, if there is one |
| Backtest.BackTest.UpdatePortfolio | src/backtest.ts:132-144 | The equity is capital plus realized and unrealized PnL, minus closed and open fees; the log is unchanged |
| Backtest.BackTest.BuildFilteredIndices | src/backtest.ts:238-248 | Returns the indices of the bars in the configured date range |
| Backtest.BackTest.BaselineEquity | src/backtest.ts:187-201 | The loop computes the baseline points |
| Backtest.BackTest.BuyAndHold | src/backtest.ts:187-208 | Computes the buy-and-hold baseline |
| Backtest.BackTest.SimulateBar | src/backtest.ts:165-176 | One loop iteration is one simulation step of the engine and the equity list |
| Backtest.BackTest.SimulateBars | src/backtest.ts:164-176 | The loop leaves the engine and the equity list as the simulation of the filtered bars |
| Backtest.BackTest.Report | src/backtest.ts:179-236 | The result block is read from the finished log and equity, which stay unchanged |
| Backtest.BackTest.Run | src/backtest.ts:147-237 | Fails with the source's message, changing nothing, when the data, its closings or the strategy is missing. Otherwise it returns the simulation's result and leaves the engine and equity as the simulation left them |
| Utils.ToUint32 | src/utils.ts:2-5 | `x >>> 0` is the residue of x modulo 2^32 |
| Utils.ToInt32 | src/utils.ts:6 | `s & 0xffffffff` is the same residue read as signed: negative exactly when the top bit is set |
| Utils.LcgStep | src/utils.ts:4-5 | The next state is a 32-bit unsigned value |
| Utils.Output | src/utils.ts:6 | A draw lies in [-0.5, 0.5) and is negative exactly when the state's top bit is set |
| Utils.UnsignedOutput | src/utils.ts:6 | The unsigned reading lies in [0, 1) and agrees with the draw when the top bit is clear |
| Utils.StateAfter | src/utils.ts:1-8 | The state after any number of calls is a 32-bit unsigned value |
| Utils.SeededRandom.constructor | src/utils.ts:1-3 | The captured state is the seed modulo 2^32 |
| Utils.SeededRandom.Next | src/utils.ts:4-7 | Each call advances the state by one generator step, so the sequence depends only on the seed; it returns the draw of the new state |
| Utils.FirstDrawOfSeed42 | tests/utils.test.ts:5-11 | Seed 42's first draw is 1083814273 / 2^32, a value fixed by the seed |
| Utils.NegativeFirstDraw | src/utils.ts:6 | Seed 1000's first draw is negative |
| Utils.SignedAndUnsignedReadings | src/utils.ts:6 | The unsigned reading is the draw plus 1 when the top bit is set, and equal to it otherwise |
| Utils.RollingMeans | src/utils.ts:10-19 | Entries before `period - 1` are holes; from there on each is the mean of the window ending there |
| Utils.RollingMean | src/utils.ts:10-19 | The running-sum loop produces those entries |
| Utils.ConstantMean | src/utils.ts:10-19 | Every window mean of a constant series is the constant |
| Utils.RollingMeanExample | tests/utils.test.ts:13-19 | Over 1..5 with period 2, entry 0 is a hole, entry 1 is 1.5 and entry 4 is 4.5 |
| Combined.AndCell | src/strategy/combined.ts:14-38 | BUY exactly when every input buys at the bar. On non-empty inputs, SELL exactly when every input sells. HOLD otherwise |
| Combined.OrCell | src/strategy/combined.ts:54-77 | BUY exactly when some input buys. SELL exactly when none buys and some sells. HOLD without inputs |
| Combined.EntryExitCell | src/strategy/combined.ts:97-108 | BUY exactly when the entry buys; SELL exactly when the entry does not buy and the exit sells |
| Combined.Columns | src/strategy/combined.ts:14-15 | Lists each input's column of one side, in input order |
| Combined.AndOf | src/strategy/combined.ts:4-42 | The AND has one cell per closing |
| Combined.OrOf | src/strategy/combined.ts:44-81 | The OR has one cell per closing |
| Combined.AndStrategy | src/strategy/combined.ts:4-42 | Each bar is BUY if every input buys, else SELL if every input sells, else HOLD, on each side |
| Combined.OrStrategy | src/strategy/combined.ts:44-81 | Each bar is BUY if some input buys, else SELL if some input sells, else HOLD, on each side |
| Combined.AndEntryExitStrategy | src/strategy/combined.ts:83-120 | Each bar is BUY from the entry strategy, else SELL from the exit strategy, else HOLD, on each side |
| Combined.NoInputs | src/strategy/combined.ts:4-81 | Without inputs, AND buys on every bar and OR holds |
| Combined.SingleInput | src/strategy/combined.ts:4-81 | AND or OR of one input gives that input back |
| Combined.AndImpliesOr | src/strategy/combined.ts:4-81 | On non-empty inputs, any non-HOLD AND decision is also the OR decision |
| Combined.OrBuyWins | src/strategy/combined.ts:54-60 | In OR one buying input beats any number of selling ones |
| Combined.AndDissentHolds | src/strategy/combined.ts:4-42 | In AND one input that does not buy and one that does not sell make the bar HOLD |
| Combined.TwoInputs | src/strategy/combined.ts:4-81 | AND and OR of two inputs, spelled out cell by cell |
| Combined.CombineTwo | src/strategy/combined.ts:13-19 | Bar i of the AND or OR of two strategies combines just their two columns at bar i |
| Combined.EntryExitSame | src/strategy/combined.ts:83-120 | One strategy used as both entry and exit gives itself back, like AND of itself |
| Basic.EntryBar | src/strategy/basic.ts:391 | The entry bar is the start index clamped into the series |
| Basic.BuyAndHoldStrategy | src/strategy/basic.ts:377-401 | BUY at the clamped entry bar; SELL at the last bar when exiting at the end, winning if both fall on one bar; HOLD elsewhere; the short column mirrors the long one |
| Basic.RsiStrategy | src/strategy/basic.ts:157-175 | One bar per RSI value; each long cell is the bar's RSI rule, and the short column mirrors it |
| Basic.RsiSignalBands | src/strategy/basic.ts:165-172 | BUY exactly below 30, SELL exactly above 70, HOLD exactly in [30, 70] |
| Basic.MacdOf | src/strategy/basic.ts:124-152 | One bar per MACD value on each side |
| Basic.MacdStrategy | src/strategy/basic.ts:124-152 | Each long cell is BUY on an upward cross, SELL on a downward cross, else HOLD; the short column mirrors it |
| Basic.MacdSignal | src/strategy/basic.ts:135-149 | BUY exactly on an upward cross (`CrossUp`) and SELL exactly on a downward one (`CrossDown`). The first bar, and bars past either line, hold |
| Basic.NoRepeatedCross | src/strategy/basic.ts:136-145 | The same cross never happens on two bars in a row, so BUY (or SELL) never repeats on the next bar |
| Basic.MacdSignalFirstBarAndExclusive | src/strategy/basic.ts:135-149 | The first bar never signals, an upward and a downward cross never coincide, and BUY means an upward cross |
| Basic.RunningExtremes | src/strategy/basic.ts:281-305 | The tracked highest and lowest are the maximum and minimum of the closes so far, each attained |
| Basic.TrailingStopStrategy | src/strategy/basic.ts:271-319 | A long SELL when the close is below the highest so far less the percentage; a short SELL when it is above the lowest plus the percentage. No column ever holds a BUY |
| Basic.NewHighKeepsLong | src/strategy/basic.ts:288-299 | With a non-negative percentage, a new high never triggers the long stop |
| Basic.RoiOf | src/strategy/basic.ts:444-447 | The ROI in percent is the long or short price move over the entry, and not finite for a zero entry |
| Basic.RoiInit | src/strategy/basic.ts:409-418 | The wrapper starts out of a trade |
| Basic.RoiRun | src/strategy/basic.ts:420-480 | The rewritten columns keep the base columns' lengths |
| Basic.RoiStrategy | src/strategy/basic.ts:403-483 | The result is the base columns rewritten bar by bar from bar 1 by the wrapper's state machine |
| Basic.RoiStepShape | src/strategy/basic.ts:420-480 | A step keeps "in a trade exactly when there is an entry price and a direction", and writes only its own bar |
| Basic.RoiRunShape | src/strategy/basic.ts:403-483 | The wrapper keeps that invariant and the lengths, and never rewrites bar 0 or an unreached bar |
| Basic.RoiLongTakesProfit | src/strategy/basic.ts:449-465 | A long at the target ROI closes: long SELL, short BUY, out of the trade |
| Basic.RoiLongAverages | src/strategy/basic.ts:466-478 | A long below the target and at most the threshold averages down: long BUY, short SELL, entry price kept |
| Basic.RoiShortTakesProfit | src/strategy/basic.ts:449-465 | A short whose short ROI reaches the target closes: short SELL, long BUY |
| Basic.RoiKeepsEntryPrice | src/strategy/basic.ts:443-479 | A trade that stays open keeps its entry price and direction |
| Basic.RoiEntersLong | src/strategy/basic.ts:424-432 | Outside a trade, a base long BUY enters long at the bar's price |
| Basic.RoiNoShortEntry | src/strategy/basic.ts:433-440 | Without a base short BUY no short trade is ever opened |
| Basic.RoiClosesAtTarget | tests/roiStrategy.test.ts:14-21 | A long entry at 100 followed by 106 is a long SELL at bar 2 |
| Basic.RoiAveragesBelowThreshold | tests/roiStrategy.test.ts:23-30 | A long entry at 100 followed by 70 is a DCA long BUY at bar 2 |
| Basic.RoiAveragesAtThreshold | src/strategy/basic.ts:471-482 | A ROI of exactly the threshold (100 then 75, -25%) already averages down: a long BUY at bar 2 |
| Basic.RoiShortClosesAtTarget | tests/roiStrategy.test.ts:32-39 | A short entry at 100 followed by 94 is a short SELL at bar 2 |
| CombineWithRoi.Resolve | src/strategy/combineWithRoi.ts:25 | Defaults: OR, a 5% target, a -25% threshold |
| CombineWithRoi.BaseOf | src/strategy/combineWithRoi.ts:27 | The combination has one cell per closing |
| CombineWithRoi.CombinedWithRoi | src/strategy/combineWithRoi.ts:20-30 | The result has one cell per closing on each side |
| CombineWithRoi.CombineWithRoiStrategy | src/strategy/combineWithRoi.ts:20-30 | The result is the ROI wrapper over the AND or OR of the inputs |
| CombineWithRoi.FirstBarIsCombination | src/strategy/combineWithRoi.ts:27-29 | Bar 0 is left as the combination decided it |
| CombineWithRoi.OrScenarioBase | tests/combineWithRoi.test.ts:14-21 | The OR of a long entry at bar 1 and a short entry at bar 0 holds both entries |
| CombineWithRoi.AndScenarioBase | tests/combineWithRoi.test.ts:23-32 | The AND of two long entries at bar 1 is that entry |
| CombineWithRoi.RoiOverLongEntry | tests/combineWithRoi.test.ts:14-32 | Over 100, 100, 106, a long entry at bar 1 is BUY then SELL, whatever the short column |
| CombineWithRoi.OrScenario | tests/combineWithRoi.test.ts:14-21 | The OR scenario takes the profit at bar 2 |
| CombineWithRoi.AndScenario | tests/combineWithRoi.test.ts:23-32 | The AND scenario is three bars long, with BUY at bar 1 and SELL at bar 2 |
| MacdMomentumDca.Resolve | src/strategy/macdMomentumDca.ts:30-37 | Defaults: MACD 12 / 26 / 9, a 5% take-profit, a -25% threshold, shorts allowed |
| MacdMomentumDca.AllHold | src/strategy/macdMomentumDca.ts:44-50 | The neutralised short column is all HOLD, of the same length |
| MacdMomentumDca.DropBuys | src/strategy/macdMomentumDca.ts:54-61 | The final map removes every BUY and keeps every other cell |
| MacdMomentumDca.BaseFor | src/strategy/macdMomentumDca.ts:41-50 | The base has one cell per MACD value on each side |
| MacdMomentumDca.MacdMomentumDcaStrategy | src/strategy/macdMomentumDca.ts:26-62 | The result is the wrapper over the MACD base, with shorts dropped when they are not allowed |
| MacdMomentumDca.MomentumShape | src/strategy/macdMomentumDca.ts:53-61 | The long column is the wrapper's, and the length is that of the MACD line |
| MacdMomentumDca.NoShortsWithoutAllowShort | src/strategy/macdMomentumDca.ts:44-61 | Without shorts, the base has no short BUY, the wrapper opens no short, and the result holds no short BUY |
| MacdMomentumDca.AllowShortIsPlainWrapper | src/strategy/macdMomentumDca.ts:53 | With shorts allowed, the result is the wrapper over the MACD strategy itself |
| Analysis.SliceBound | src/strategy/analysis.ts:38-39 | A slice bound is clamped into the array and agrees with an in-range index |
| Analysis.Slice | src/strategy/analysis.ts:38-39 | An in-range slice is the subsequence |
| Analysis.Smooth | src/strategy/analysis.ts:44-51 | Smoothing non-negative values stays non-negative |
| Analysis.AveragesOf | src/strategy/analysis.ts:41-51 | The smoothed gain and loss are never negative |
| Analysis.StrengthOf | src/strategy/analysis.ts:53-55 | The strength lies in [0, 100], and is 100 exactly when there was no loss |
| Analysis.CalculateTrendStrength | src/strategy/analysis.ts:29-56 | The method computes the trend strength of the window |
| Analysis.TrendStrengthRange | src/strategy/analysis.ts:29-56 | 0 on too short a series, otherwise in [0, 100], and 100 exactly when the window's smoothed loss is 0 |
| Analysis.NoFallNoLoss | src/strategy/analysis.ts:44-51 | A window that never falls carries no loss |
| Analysis.RisingWindowFullStrength | src/strategy/analysis.ts:29-56 | A window of closes that never fall has full strength |
| Analysis.Classify | src/strategy/analysis.ts:70-80 | VOLATILE exactly when volatile and weak; TRENDING exactly when not that and strong, or moderately strong and calm |
| Analysis.ClassifyByStrength | src/strategy/analysis.ts:70-80 | Above 55 is trending whatever the volatility; at most 50 never is; 45 to 50 is ranging |
| Analysis.RisingWindowIsTrending | src/strategy/analysis.ts:58-83 | A window that never falls classifies as trending |
| Analysis.AnalyzeMarket | src/strategy/analysis.ts:58-83 | Reports the supplied volatility, the window's trend strength and their classification |
| Analysis.GetMarketConditions | src/strategy/analysis.ts:86-95 | Bars before 14 have no condition; every later bar has the classification of its own window and volatility |

## Left out

- Floating point: every number is a real, so rounding, NaN and the infinities are not modelled. The exceptions are the cases written out as datatype cases: the ROI over a zero entry price, and the Sharpe ratio over a zero equity.
- Backtest.SharpeOf: returns the mean and variance, not `mean * sqrt(252) / sqrt(variance)`, because reals have no square root.
- `calculateVolatility` (src/strategy/analysis.ts:5-27) and `rollingStd` (src/utils.ts:21-32) need a square root. They are left out, and `analyzeMarket` and `getMarketConditions` take the volatility as an input.
- The indicator library (`indicatorts`: `rsi`, `macd`, `ema`, `sma` and the others) is foreign code. `rsiStrategy` and `macdStrategy` take the indicator line as a parameter, the form the source also accepts. `macdMomentumDcaStrategy` takes the MACD result its fast / slow / signal settings would produce.
- The strategies that only compute indicators and compare them (double / triple EMA, MACD + RSI, envelopes, SMA crossover) and `src/strategy/adaptive.ts` are not part of this model.
- Strategies read only the closing prices of the asset; the other asset columns are not modelled.
- `Date.now()` order ids are one `id` parameter of `run`. The constructor's `new Date()` is a `now` parameter.
- Dates are integer milliseconds. `Date` objects and their parsing are not modelled.
- Engine.TradingEngine.constructor: with AddOrder and EnsureSorted, the source keeps the caller's array as its log, pushes into it and sorts it in place; the model's log is a `seq` field, so it does not capture that aliasing. In src/backtest.ts:32 the engine is built on a fresh empty array, so no caller sees the difference.
- Engine.TradingEngine.GetPosition: the `Map` of accumulators and the `Acc` records the engine mutates are immutable values (`Book`, `Acc`). The model has no aliasing between an accumulator and its map, and the source has none that matters. String keys `symbol|side` are the pair `Key(symbol, posSide)`.
- Basic.RoiStrategy: requires both base columns to reach every closing. The source writes past the end of a shorter column, which grows the JavaScript array; that growth is not modelled.
- MacdMomentumDca.MacdMomentumDcaStrategy: requires the MACD line to be at least as long as the closings, as the `macd` of those closings is.
- MacdMomentumDca.MacdMomentumDcaStrategy: the header of src/strategy/macdMomentumDca.ts:22-24 describes its exits and averagings as happening only on an opposite MACD signal, and averaging only on a ROI strictly below the threshold. The code runs the plain `roiStrategy` wrapper (src/strategy/basic.ts:449-482), which checks no opposite signal and averages at a ROI of exactly the threshold. The model follows the code. Basic.RoiClosesAtTarget takes profit at a bar whose base is HOLD, and Basic.RoiAveragesAtThreshold averages at exactly -25%.
- Backtest.Asset: market data must date no more bars than it has closings. In the source, a dated bar without a closing reads an `undefined` close, which turns the order sizes and equity into NaN; the model excludes that case.
- Utils.RollingMean: requires a period of at least 1. A period of 0 divides by zero in the source.
- Analysis.CalculateTrendStrength: requires a period of at least 1. The source's smoothing divides by the period.
- Backtest.BackTest.Run: with no bar in the date range, the final positions are priced at 0. This is the source's behaviour: `closingsArr[undefined]` is `undefined`, and `Number(currentPrices[symbol] || 0)` makes it 0. The engine is never reset between runs, so a position left open by an earlier run is valued at that price of 0.
- Backtest.BaselineOf: the baseline is `None` when the first filtered close is 0 (every baseline value would be non-finite). Its total return is `None` when the initial capital is 0.
- Order ids that are not strings are `None`; the engine then omits `lastOrderId`.
- Concurrency and I/O: the source has none in the core. The examples under src/example and the logging are not part of this model.

Three behaviours of the source carry no flag in its comments and are reproduced as they are written:

- Fees are counted twice in `netProfit`. `totalRealizedPnL` is already net of each trade's fees, and `run` subtracts `totalFeesClosed` again (`Backtest.NetProfitCountsFeesTwice`). `updatePortfolio` does the same for the equity curve.
- The drawdown peak leaves out the point being added, so a new high is recorded as a negative drawdown (`Backtest.RiseGivesNegativeDrawdown`).
- A break-even trade is losing in the backtest result but neither won nor lost in the engine's statistics (`Backtest.BreakEvenTradeCountsAsLoss`).

The BUY branches of `trailingStopStrategy` (src/strategy/basic.ts:297-299 and 312-314) compare the price with an extreme that was just moved to it, so they never fire. `Basic.TrailingStopStrategy` states that no BUY is ever produced.

## Findings

| source | as written | input that shows it | evidently intended | confidence | as-written member | corrected member |
|---|---|---|---|---|---|---|
| src/utils.ts:6 | `(s & 0xffffffff) / 0x100000000` reads the state as a signed 32-bit integer, so a draw lies in [-0.5, 0.5) and is negative for every state with its top bit set | seed 1000: the first state is 2678429223 and the first draw is -1616538073 / 2^32 | a uniform draw in [0, 1), `(s >>> 0) / 2^32` | not executed | Utils.NegativeFirstDraw | Utils.UnsignedOutput |
