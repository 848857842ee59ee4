/** The self-contained signal strategies of src/strategy/basic.ts: buy-and-hold,
    RSI and MACD thresholds over supplied indicator lines, the trailing stop and
    the ROI / DCA wrapper. Each fills HOLD columns by index. */
module Basic {
  import opened Wrappers
  import opened Types

  /** A strategy whose short column mirrors its long column on every bar. */
  predicate Symmetric(r: Strategy) {
    |r.longStrategy| == |r.shortStrategy|
    && forall i :: 0 <= i < |r.longStrategy| ==> r.shortStrategy[i] == Mirror(r.longStrategy[i])
  }

  // ----- buyAndHoldStrategy -----

  /** `Math.max(0, Math.min(startIndex, length - 1))`. */
  function EntryBar(length: nat, startIndex: int): (i: nat)
    requires length > 0
    ensures i < length
    ensures 0 <= startIndex < length ==> i == startIndex
    ensures startIndex < 0 ==> i == 0
    ensures startIndex >= length ==> i == length - 1
  {
    if startIndex < 0 then 0 else if startIndex > length - 1 then length - 1 else startIndex
  }

  /** BUY on the entry bar, SELL on the last bar when `exitAtEnd` (winning over
      the entry if they coincide), HOLD elsewhere; the short column mirrors it. */
  method BuyAndHoldStrategy(closings: seq<real>, startIndex: int, exitAtEnd: bool) returns (r: Strategy)
    ensures r.length == |closings| == |r.longStrategy| == |r.shortStrategy|
    ensures Symmetric(r)
    ensures |closings| > 0 ==>
              var e := EntryBar(|closings|, startIndex);
              r.longStrategy[e] == (if exitAtEnd && e == |closings| - 1 then Sell else Buy)
    ensures exitAtEnd && |closings| > 0 ==> r.longStrategy[|closings| - 1] == Sell
    ensures forall k :: (0 <= k < |closings| && k != EntryBar(|closings|, startIndex)
                         && !(exitAtEnd && k == |closings| - 1)) ==> r.longStrategy[k] == Hold
    ensures !exitAtEnd ==> forall k :: 0 <= k < |closings| ==> r.longStrategy[k] != Sell
  {
    var length := |closings|;
    var longs := new Action[length](_ => Hold);
    var shorts := new Action[length](_ => Hold);
    if length == 0 {
      return Strategy(longs[..], shorts[..], length);
    }
    var i := EntryBar(length, startIndex);
    longs[i] := Buy;
    shorts[i] := Sell;
    if exitAtEnd && length - 1 >= i {
      longs[length - 1] := Sell;
      shorts[length - 1] := Buy;
    }
    r := Strategy(longs[..], shorts[..], length);
  }

  // ----- rsiStrategy -----

  /** The RSI rule of one bar: oversold buys long, overbought sells long. */
  function RsiSignal(value: real): Action {
    if value < 30.0 then Buy else if value > 70.0 then Sell else Hold
  }

  /** `rsiStrategy` over a supplied RSI line: one bar per RSI value. */
  method RsiStrategy(rsi: seq<real>) returns (r: Strategy)
    ensures r.length == |rsi| == |r.longStrategy| == |r.shortStrategy|
    ensures Symmetric(r)
    ensures forall i :: 0 <= i < |rsi| ==> r.longStrategy[i] == RsiSignal(rsi[i])
  {
    var length := |rsi|;
    var longs := new Action[length](_ => Hold);
    var shorts := new Action[length](_ => Hold);
    for i := 0 to length
      invariant forall j :: 0 <= j < i ==> longs[j] == RsiSignal(rsi[j]) && shorts[j] == Mirror(longs[j])
      invariant forall j :: i <= j < length ==> longs[j] == Hold && shorts[j] == Hold
    {
      if rsi[i] < 30.0 {
        longs[i] := Buy;
        shorts[i] := Sell;
      } else if rsi[i] > 70.0 {
        longs[i] := Sell;
        shorts[i] := Buy;
      }
    }
    r := Strategy(longs[..], shorts[..], length);
  }

  /** RSI thresholds: below 30 is a long BUY, above 70 a long SELL, and the band
      in between holds. */
  lemma RsiSignalBands(value: real)
    ensures RsiSignal(value) == Buy <==> value < 30.0
    ensures RsiSignal(value) == Sell <==> value > 70.0
    ensures RsiSignal(value) == Hold <==> 30.0 <= value <= 70.0
  {
  }

  // ----- macdStrategy -----

  /** A supplied MACD result (indicatorts `MACDResult`). */
  datatype MacdResult = MacdResult(macdLine: seq<real>, signalLine: seq<real>)

  /** The MACD line crosses above the signal line at bar `i`; a signal value
      past the end is `undefined` and compares false. */
  predicate CrossUp(m: MacdResult, i: int) {
    1 <= i < |m.macdLine| && i < |m.signalLine|
    && m.macdLine[i] > m.signalLine[i] && m.macdLine[i - 1] <= m.signalLine[i - 1]
  }

  predicate CrossDown(m: MacdResult, i: int) {
    1 <= i < |m.macdLine| && i < |m.signalLine|
    && m.macdLine[i] < m.signalLine[i] && m.macdLine[i - 1] >= m.signalLine[i - 1]
  }

  /** BUY on an upward cross, SELL on a downward one, HOLD otherwise; the first
      bar has no previous value and never signals. */
  function MacdSignal(m: MacdResult, i: int): (a: Action)
    ensures a == Buy <==> CrossUp(m, i)
    ensures a == Sell <==> CrossDown(m, i)
    ensures i <= 0 || i >= |m.macdLine| || i >= |m.signalLine| ==> a == Hold
  {
    if CrossUp(m, i) then Buy else if CrossDown(m, i) then Sell else Hold
  }

  /** The symmetric strategy of the MACD crosses, one bar per MACD value. */
  function MacdOf(m: MacdResult): (r: Strategy)
    ensures r.length == |m.macdLine| == |r.longStrategy| == |r.shortStrategy|
  {
    Strategy(seq(|m.macdLine|, i => MacdSignal(m, i)), seq(|m.macdLine|, i => Mirror(MacdSignal(m, i))),
             |m.macdLine|)
  }

  /** `macdStrategy` over a supplied MACD result: one bar per MACD value. */
  method MacdStrategy(m: MacdResult) returns (r: Strategy)
    ensures r == MacdOf(m)
    ensures r.length == |m.macdLine| == |r.longStrategy| == |r.shortStrategy|
    ensures Symmetric(r)
    ensures forall i :: 0 <= i < |m.macdLine| ==> r.longStrategy[i] == MacdSignal(m, i)
  {
    var length := |m.macdLine|;
    var longs := new Action[length](_ => Hold);
    var shorts := new Action[length](_ => Hold);
    if length > 0 {
      for i := 1 to length
        invariant forall j :: 0 <= j < i ==> longs[j] == MacdSignal(m, j) && shorts[j] == Mirror(longs[j])
        invariant forall j :: i <= j < length ==> longs[j] == Hold && shorts[j] == Hold
      {
        if i < |m.signalLine| && m.macdLine[i] > m.signalLine[i] && m.macdLine[i - 1] <= m.signalLine[i - 1] {
          longs[i] := Buy;
          shorts[i] := Sell;
        } else if i < |m.signalLine| && m.macdLine[i] < m.signalLine[i] && m.macdLine[i - 1] >= m.signalLine[i - 1] {
          longs[i] := Sell;
          shorts[i] := Buy;
        }
      }
    }
    r := Strategy(longs[..], shorts[..], length);
  }

  /** The first bar never signals, and an upward and a downward cross never
      happen on the same bar. */
  lemma MacdSignalFirstBarAndExclusive(m: MacdResult, i: int)
    ensures MacdSignal(m, 0) == Hold
    ensures !(CrossUp(m, i) && CrossDown(m, i))
    ensures MacdSignal(m, i) == Buy <==> CrossUp(m, i)
  {
  }

  /** A cross ends the relation it crosses from, so the same cross cannot
      happen on two bars in a row. */
  lemma NoRepeatedCross(m: MacdResult, i: int)
    ensures CrossUp(m, i) ==> !CrossUp(m, i + 1) && MacdSignal(m, i + 1) != Buy
    ensures CrossDown(m, i) ==> !CrossDown(m, i + 1) && MacdSignal(m, i + 1) != Sell
  {
  }

  // ----- trailingStopStrategy -----

  /** The highest close among bars 0..i. */
  function RunningMax(xs: seq<real>, i: nat): real
    requires i < |xs|
  {
    if i == 0 then xs[0] else if xs[i] > RunningMax(xs, i - 1) then xs[i] else RunningMax(xs, i - 1)
  }

  /** The lowest close among bars 0..i. */
  function RunningMin(xs: seq<real>, i: nat): real
    requires i < |xs|
  {
    if i == 0 then xs[0] else if xs[i] < RunningMin(xs, i - 1) then xs[i] else RunningMin(xs, i - 1)
  }

  /** The running extremes are the maximum and minimum of the closes so far. */
  lemma {:induction false} RunningExtremes(xs: seq<real>, i: nat)
    requires i < |xs|
    ensures forall k :: 0 <= k <= i ==> RunningMin(xs, i) <= xs[k] <= RunningMax(xs, i)
    ensures exists k :: 0 <= k <= i && xs[k] == RunningMax(xs, i)
    ensures exists k :: 0 <= k <= i && xs[k] == RunningMin(xs, i)
  {
    if i > 0 {
      RunningExtremes(xs, i - 1);
    }
  }

  /** The long stop: the percentage below the highest close. */
  function LongStopPrice(highest: real, trailingPercentage: real): real {
    highest * (1.0 - trailingPercentage / 100.0)
  }

  /** The short stop: the percentage above the lowest close. */
  function ShortStopPrice(lowest: real, trailingPercentage: real): real {
    lowest * (1.0 + trailingPercentage / 100.0)
  }

  /** The trailing-stop signal of one bar of the long side. */
  function LongStop(xs: seq<real>, i: nat, trailingPercentage: real): Action
    requires i < |xs|
  {
    if 1 <= i && xs[i] < LongStopPrice(RunningMax(xs, i), trailingPercentage) then Sell else Hold
  }

  function ShortStop(xs: seq<real>, i: nat, trailingPercentage: real): Action
    requires i < |xs|
  {
    if 1 <= i && xs[i] > ShortStopPrice(RunningMin(xs, i), trailingPercentage) then Sell else Hold
  }

  /** `trailingStopStrategy`: SELL long below the highest close so far less the
      percentage, SELL short above the lowest close plus it. The source's BUY
      branches test the price against an extreme already moved to it, so they
      never fire. */
  method TrailingStopStrategy(closings: seq<real>, trailingPercentage: real) returns (r: Strategy)
    ensures r.length == |closings| == |r.longStrategy| == |r.shortStrategy|
    ensures forall i :: 0 <= i < |closings| ==> r.longStrategy[i] == LongStop(closings, i, trailingPercentage)
    ensures forall i :: 0 <= i < |closings| ==> r.shortStrategy[i] == ShortStop(closings, i, trailingPercentage)
    ensures forall i :: 0 <= i < |closings| ==> r.longStrategy[i] != Buy && r.shortStrategy[i] != Buy
  {
    var length := |closings|;
    var longs := new Action[length](_ => Hold);
    var shorts := new Action[length](_ => Hold);
    if length > 0 {
      var highestPrice := closings[0];
      var lowestPrice := closings[0];
      for i := 1 to length
        invariant highestPrice == RunningMax(closings, i - 1) && lowestPrice == RunningMin(closings, i - 1)
        invariant forall j :: 0 <= j < i ==>
                    longs[j] == LongStop(closings, j, trailingPercentage)
                    && shorts[j] == ShortStop(closings, j, trailingPercentage)
        invariant forall j :: i <= j < length ==> longs[j] == Hold && shorts[j] == Hold
      {
        var currentPrice := closings[i];
        if currentPrice > highestPrice {
          highestPrice := currentPrice;
        }
        var longStopPrice := LongStopPrice(highestPrice, trailingPercentage);
        if currentPrice < longStopPrice {
          longs[i] := Sell;
        } else if currentPrice > highestPrice {
          assert false;
        }
        if currentPrice < lowestPrice {
          lowestPrice := currentPrice;
        }
        var shortStopPrice := ShortStopPrice(lowestPrice, trailingPercentage);
        if currentPrice > shortStopPrice {
          shorts[i] := Sell;
        } else if currentPrice < lowestPrice {
          assert false;
        }
      }
    }
    r := Strategy(longs[..], shorts[..], length);
  }

  /** With a non-negative percentage a new high never triggers the long stop. */
  lemma NewHighKeepsLong(xs: seq<real>, i: nat, trailingPercentage: real)
    requires 1 <= i < |xs| && 0.0 <= trailingPercentage && xs[i] >= 0.0
    requires xs[i] >= RunningMax(xs, i - 1)
    ensures LongStop(xs, i, trailingPercentage) == Hold
  {
    assert RunningMax(xs, i) == xs[i];
    assert LongStopPrice(xs[i], trailingPercentage) <= xs[i];
  }

  // ----- roiStrategy -----

  /** The ROI in percent of a trade, or the IEEE value of a division by a zero
      entry price. */
  datatype Roi = Finite(pct: real) | PlusInfinity | MinusInfinity | NotANumber

  /** Direction 1 is long; the source treats any other direction as short. */
  function RoiOf(direction: int, entry: real, price: real): (r: Roi)
    ensures entry != 0.0 && direction == 1 ==> r == Finite((price - entry) / entry * 100.0)
    ensures entry != 0.0 && direction != 1 ==> r == Finite((entry - price) / entry * 100.0)
    ensures entry == 0.0 ==> !r.Finite?
  {
    var diff := if direction == 1 then price - entry else entry - price;
    if entry != 0.0 then Finite(diff / entry * 100.0)
    else if diff > 0.0 then PlusInfinity
    else if diff < 0.0 then MinusInfinity
    else NotANumber
  }

  predicate AtLeast(r: Roi, t: real) {
    (r.Finite? && r.pct >= t) || r.PlusInfinity?
  }

  predicate AtMost(r: Roi, t: real) {
    (r.Finite? && r.pct <= t) || r.MinusInfinity?
  }

  /** The loop state of `roiStrategy` with the two result columns. */
  datatype RoiState = RoiState(
    inTrade: bool,
    tradeDirection: int,
    entryPrice: Option<real>,
    averagingCount: nat,
    long: seq<Action>,
    short: seq<Action>)

  /** A trade is open exactly when it has an entry price and a direction. */
  predicate RoiInv(st: RoiState) {
    && (st.inTrade <==> st.entryPrice.Some?)
    && (st.inTrade <==> st.tradeDirection != 0)
    && -1 <= st.tradeDirection <= 1
  }

  /** Both columns reach every bar of the asset. */
  predicate Covers(base: Strategy, bars: nat) {
    |base.longStrategy| >= bars && |base.shortStrategy| >= bars
  }

  function RoiInit(base: Strategy): (st: RoiState)
    ensures RoiInv(st)
  {
    RoiState(false, 0, None, 0, base.longStrategy, base.shortStrategy)
  }

  /** Writes a long and a short action at bar `i`. */
  function Put(st: RoiState, i: nat, longAction: Action, shortAction: Action): RoiState
    requires i < |st.long| && i < |st.short|
  {
    st.(long := st.long[i := longAction], short := st.short[i := shortAction])
  }

  /** Entry detection: outside a trade, a base BUY opens a long, else a base
      short BUY opens a short, at the bar's price. */
  function RoiEnter(st: RoiState, base: Strategy, price: real, i: nat): RoiState
    requires i < |st.long| && i < |st.short|
  {
    if st.inTrade then st
    else if Cell(base.longStrategy, i) == Some(Buy) then
      Put(st.(inTrade := true, tradeDirection := 1, entryPrice := Some(price), averagingCount := 0), i, Buy, Sell)
    else if Cell(base.shortStrategy, i) == Some(Buy) then
      Put(st.(inTrade := true, tradeDirection := -1, entryPrice := Some(price), averagingCount := 0), i, Sell, Buy)
    else st
  }

  /** Exit and averaging: at ROI >= target the trade closes with the opposite
      pattern; at ROI <= threshold it averages down in its own direction. */
  function RoiManage(st: RoiState, price: real, i: nat, targetRoi: real, dcaThreshold: real): RoiState
    requires i < |st.long| && i < |st.short|
  {
    if !(st.inTrade && st.entryPrice.Some?) then st
    else
      var roi := RoiOf(st.tradeDirection, st.entryPrice.value, price);
      if AtLeast(roi, targetRoi) then
        var written := if st.tradeDirection == 1 then Put(st, i, Sell, Buy) else Put(st, i, Buy, Sell);
        written.(inTrade := false, tradeDirection := 0, entryPrice := None, averagingCount := 0)
      else if AtMost(roi, dcaThreshold) then
        var written := if st.tradeDirection == 1 then Put(st, i, Buy, Sell) else Put(st, i, Sell, Buy);
        written.(averagingCount := st.averagingCount + 1)
      else st
  }

  function RoiStep(st: RoiState, base: Strategy, price: real, i: nat, targetRoi: real, dcaThreshold: real)
    : RoiState
    requires i < |st.long| && i < |st.short|
  {
    var entered := RoiEnter(st, base, price, i);
    RoiManage(entered, price, i, targetRoi, dcaThreshold)
  }

  /** The state after bars 1..n-1 (bar 0 is never processed). */
  function RoiRun(closings: seq<real>, base: Strategy, targetRoi: real, dcaThreshold: real, n: nat): (st: RoiState)
    requires n <= |closings| && Covers(base, |closings|)
    ensures |st.long| == |base.longStrategy| && |st.short| == |base.shortStrategy|
  {
    if n <= 1 then RoiInit(base)
    else RoiStep(RoiRun(closings, base, targetRoi, dcaThreshold, n - 1), base, closings[n - 1], n - 1,
                 targetRoi, dcaThreshold)
  }

  /** The entry-detection half of one bar of `roiStrategy`. */
  method DetectEntry(longs: array<Action>, shorts: array<Action>, baseStrategy: Strategy, price: real, i: nat,
                     inTrade: bool, tradeDirection: int, entryPrice: Option<real>, averagingCount: nat)
    returns (inTrade': bool, tradeDirection': int, entryPrice': Option<real>, averagingCount': nat)
    requires longs != shorts && i < longs.Length && i < shorts.Length
    modifies longs, shorts
    ensures RoiState(inTrade', tradeDirection', entryPrice', averagingCount', longs[..], shorts[..])
         == RoiEnter(RoiState(inTrade, tradeDirection, entryPrice, averagingCount, old(longs[..]), old(shorts[..])),
                     baseStrategy, price, i)
  {
    inTrade', tradeDirection', entryPrice', averagingCount' := inTrade, tradeDirection, entryPrice, averagingCount;
    if !inTrade {
      if Cell(baseStrategy.longStrategy, i) == Some(Buy) {
        inTrade', tradeDirection', entryPrice', averagingCount' := true, 1, Some(price), 0;
        longs[i] := Buy;
        shorts[i] := Sell;
      } else if Cell(baseStrategy.shortStrategy, i) == Some(Buy) {
        inTrade', tradeDirection', entryPrice', averagingCount' := true, -1, Some(price), 0;
        shorts[i] := Buy;
        longs[i] := Sell;
      }
    }
  }

  /** The exit / averaging half of one bar of `roiStrategy`. */
  method ManageTrade(longs: array<Action>, shorts: array<Action>, price: real, i: nat,
                     targetRoi: real, dcaThreshold: real,
                     inTrade: bool, tradeDirection: int, entryPrice: Option<real>, averagingCount: nat)
    returns (inTrade': bool, tradeDirection': int, entryPrice': Option<real>, averagingCount': nat)
    requires longs != shorts && i < longs.Length && i < shorts.Length
    modifies longs, shorts
    ensures RoiState(inTrade', tradeDirection', entryPrice', averagingCount', longs[..], shorts[..])
         == RoiManage(RoiState(inTrade, tradeDirection, entryPrice, averagingCount, old(longs[..]), old(shorts[..])),
                      price, i, targetRoi, dcaThreshold)
  {
    inTrade', tradeDirection', entryPrice', averagingCount' := inTrade, tradeDirection, entryPrice, averagingCount;
    if inTrade && entryPrice.Some? {
      var roi := RoiOf(tradeDirection, entryPrice.value, price);
      if AtLeast(roi, targetRoi) {
        if tradeDirection == 1 {
          longs[i] := Sell;
          shorts[i] := Buy;
        } else {
          shorts[i] := Sell;
          longs[i] := Buy;
        }
        inTrade', tradeDirection', entryPrice', averagingCount' := false, 0, None, 0;
      } else if AtMost(roi, dcaThreshold) {
        if tradeDirection == 1 {
          longs[i] := Buy;
          shorts[i] := Sell;
        } else {
          shorts[i] := Buy;
          longs[i] := Sell;
        }
        averagingCount' := averagingCount + 1;
      }
    }
  }

  /** One bar of `roiStrategy`: entry detection, then exit or averaging. */
  method RoiBar(longs: array<Action>, shorts: array<Action>, baseStrategy: Strategy, price: real, i: nat,
                targetRoi: real, dcaThreshold: real,
                inTrade: bool, tradeDirection: int, entryPrice: Option<real>, averagingCount: nat)
    returns (inTrade': bool, tradeDirection': int, entryPrice': Option<real>, averagingCount': nat)
    requires longs != shorts && i < longs.Length && i < shorts.Length
    modifies longs, shorts
    ensures RoiState(inTrade', tradeDirection', entryPrice', averagingCount', longs[..], shorts[..])
         == RoiStep(RoiState(inTrade, tradeDirection, entryPrice, averagingCount, old(longs[..]), old(shorts[..])),
                    baseStrategy, price, i, targetRoi, dcaThreshold)
  {
    inTrade', tradeDirection', entryPrice', averagingCount' :=
      DetectEntry(longs, shorts, baseStrategy, price, i, inTrade, tradeDirection, entryPrice, averagingCount);
    inTrade', tradeDirection', entryPrice', averagingCount' :=
      ManageTrade(longs, shorts, price, i, targetRoi, dcaThreshold,
                  inTrade', tradeDirection', entryPrice', averagingCount');
  }

  /** `[...column]`: a fresh array holding the column. */
  method CopyColumn(column: seq<Action>) returns (a: array<Action>)
    ensures fresh(a) && a[..] == column
  {
    a := new Action[|column|](k requires 0 <= k < |column| => column[k]);
  }

  /** `roiStrategy`: the base columns copied, then rewritten bar by bar from bar 1. */
  method RoiStrategy(closings: seq<real>, baseStrategy: Strategy, targetRoi: real, dcaThreshold: real)
    returns (r: Strategy)
    requires Covers(baseStrategy, |closings|)
    ensures var st := RoiRun(closings, baseStrategy, targetRoi, dcaThreshold, |closings|);
            r == Strategy(st.long, st.short, baseStrategy.length)
  {
    var longs := CopyColumn(baseStrategy.longStrategy);
    var shorts := CopyColumn(baseStrategy.shortStrategy);
    var inTrade := false;
    var tradeDirection := 0;
    var entryPrice: Option<real> := None;
    var averagingCount: nat := 0;
    var n := |closings|;
    if n > 1 {
      for i := 1 to n
        invariant RoiState(inTrade, tradeDirection, entryPrice, averagingCount, longs[..], shorts[..])
                  == RoiRun(closings, baseStrategy, targetRoi, dcaThreshold, i)
      {
        inTrade, tradeDirection, entryPrice, averagingCount :=
          RoiBar(longs, shorts, baseStrategy, closings[i], i, targetRoi, dcaThreshold,
                 inTrade, tradeDirection, entryPrice, averagingCount);
      }
    }
    r := Strategy(longs[..], shorts[..], baseStrategy.length);
  }

  // ----- properties of the ROI wrapper -----

  /** One step keeps the trade invariant and writes bar `i` only. */
  lemma RoiStepShape(st: RoiState, base: Strategy, price: real, i: nat, targetRoi: real, dcaThreshold: real)
    requires i < |st.long| && i < |st.short| && RoiInv(st)
    ensures var s2 := RoiStep(st, base, price, i, targetRoi, dcaThreshold);
            && RoiInv(s2)
            && |s2.long| == |st.long| && |s2.short| == |st.short|
            && (forall k :: 0 <= k < |st.long| && k != i ==> s2.long[k] == st.long[k])
            && (forall k :: 0 <= k < |st.short| && k != i ==> s2.short[k] == st.short[k])
  {
  }

  /** The wrapper keeps the trade invariant and the columns' lengths, and never
      rewrites bar 0 or a bar it has not reached. */
  lemma {:induction false} RoiRunShape(closings: seq<real>, base: Strategy, targetRoi: real, dcaThreshold: real,
                                       n: nat)
    requires n <= |closings| && Covers(base, |closings|)
    ensures var st := RoiRun(closings, base, targetRoi, dcaThreshold, n);
            && RoiInv(st)
            && (forall k :: 0 <= k < |st.long| && (k == 0 || k >= n) ==> st.long[k] == base.longStrategy[k])
            && (forall k :: 0 <= k < |st.short| && (k == 0 || k >= n) ==> st.short[k] == base.shortStrategy[k])
  {
    if n > 1 {
      RoiRunShape(closings, base, targetRoi, dcaThreshold, n - 1);
      RoiStepShape(RoiRun(closings, base, targetRoi, dcaThreshold, n - 1), base, closings[n - 1], n - 1,
                   targetRoi, dcaThreshold);
    }
  }

  /** A long trade whose ROI reaches the target closes: long SELL, short BUY. */
  lemma RoiLongTakesProfit(st: RoiState, base: Strategy, price: real, i: nat, targetRoi: real, dcaThreshold: real)
    requires i < |st.long| && i < |st.short|
    requires st.inTrade && st.tradeDirection == 1 && st.entryPrice.Some? && st.entryPrice.value != 0.0
    requires (price - st.entryPrice.value) / st.entryPrice.value * 100.0 >= targetRoi
    ensures var s2 := RoiStep(st, base, price, i, targetRoi, dcaThreshold);
            s2.long[i] == Sell && s2.short[i] == Buy && !s2.inTrade && s2.entryPrice.None?
  {
  }

  /** A long trade whose ROI falls to the threshold (but not the target) averages
      down: long BUY, short SELL, still in the trade at the first entry price. */
  lemma RoiLongAverages(st: RoiState, base: Strategy, price: real, i: nat, targetRoi: real, dcaThreshold: real)
    requires i < |st.long| && i < |st.short|
    requires st.inTrade && st.tradeDirection == 1 && st.entryPrice.Some? && st.entryPrice.value != 0.0
    requires var roi := (price - st.entryPrice.value) / st.entryPrice.value * 100.0;
             roi < targetRoi && roi <= dcaThreshold
    ensures var s2 := RoiStep(st, base, price, i, targetRoi, dcaThreshold);
            && s2.long[i] == Buy && s2.short[i] == Sell
            && s2.inTrade && s2.entryPrice == st.entryPrice && s2.averagingCount == st.averagingCount + 1
  {
  }

  /** A short trade's ROI is `(entry - price) / entry * 100`; at the target it
      closes with short SELL and long BUY. */
  lemma RoiShortTakesProfit(st: RoiState, base: Strategy, price: real, i: nat, targetRoi: real,
                            dcaThreshold: real)
    requires i < |st.long| && i < |st.short|
    requires st.inTrade && st.tradeDirection == -1 && st.entryPrice.Some? && st.entryPrice.value != 0.0
    requires (st.entryPrice.value - price) / st.entryPrice.value * 100.0 >= targetRoi
    ensures var s2 := RoiStep(st, base, price, i, targetRoi, dcaThreshold);
            s2.short[i] == Sell && s2.long[i] == Buy && !s2.inTrade
  {
  }

  /** The entry price is set only on entry: while a trade stays open (averaging
      included) it keeps the price it was entered at. */
  lemma RoiKeepsEntryPrice(st: RoiState, base: Strategy, price: real, i: nat, targetRoi: real, dcaThreshold: real)
    requires i < |st.long| && i < |st.short| && RoiInv(st)
    requires st.inTrade
    ensures var s2 := RoiStep(st, base, price, i, targetRoi, dcaThreshold);
            s2.inTrade ==> s2.entryPrice == st.entryPrice && s2.tradeDirection == st.tradeDirection
  {
  }

  /** Outside a trade, a base long BUY enters long at the bar's price; with a
      positive target and a negative threshold the trade then stays open. */
  lemma RoiEntersLong(st: RoiState, base: Strategy, price: real, i: nat, targetRoi: real, dcaThreshold: real)
    requires i < |st.long| && i < |st.short|
    requires !st.inTrade && Cell(base.longStrategy, i) == Some(Buy)
    requires price != 0.0 && targetRoi > 0.0 && dcaThreshold < 0.0
    ensures var s2 := RoiStep(st, base, price, i, targetRoi, dcaThreshold);
            && s2.inTrade && s2.tradeDirection == 1 && s2.entryPrice == Some(price)
            && s2.long[i] == Buy && s2.short[i] == Sell
  {
    assert (price - price) / price * 100.0 == 0.0;
  }

  /** Without a base short BUY the wrapper never opens a short trade. */
  lemma {:induction false} RoiNoShortEntry(closings: seq<real>, base: Strategy, targetRoi: real,
                                           dcaThreshold: real, n: nat)
    requires n <= |closings| && Covers(base, |closings|)
    requires forall k :: 0 <= k < |base.shortStrategy| ==> base.shortStrategy[k] != Buy
    ensures RoiRun(closings, base, targetRoi, dcaThreshold, n).tradeDirection >= 0
  {
    if n > 1 {
      RoiNoShortEntry(closings, base, targetRoi, dcaThreshold, n - 1);
      RoiRunShape(closings, base, targetRoi, dcaThreshold, n - 1);
    }
  }

  /** Test scenario: long entry at bar 1 at 100, then 106 is a 6% ROI, a long SELL. */
  lemma RoiClosesAtTarget()
    ensures var base := Strategy([Hold, Buy, Hold], [Hold, Hold, Hold], 3);
            RoiRun([100.0, 100.0, 106.0], base, 5.0, -25.0, 3).long[2] == Sell
  {
    var base := Strategy([Hold, Buy, Hold], [Hold, Hold, Hold], 3);
    var xs := [100.0, 100.0, 106.0];
    var s1 := RoiRun(xs, base, 5.0, -25.0, 2);
    assert s1 == RoiStep(RoiInit(base), base, 100.0, 1, 5.0, -25.0);
    assert s1.inTrade && s1.tradeDirection == 1 && s1.entryPrice == Some(100.0);
    RoiLongTakesProfit(s1, base, 106.0, 2, 5.0, -25.0);
  }

  /** Test scenario: long entry at bar 1 at 100, then 70 is -30%, a DCA long BUY. */
  lemma RoiAveragesBelowThreshold()
    ensures var base := Strategy([Hold, Buy, Hold], [Hold, Hold, Hold], 3);
            RoiRun([100.0, 100.0, 70.0], base, 5.0, -25.0, 3).long[2] == Buy
  {
    var base := Strategy([Hold, Buy, Hold], [Hold, Hold, Hold], 3);
    var xs := [100.0, 100.0, 70.0];
    var s1 := RoiRun(xs, base, 5.0, -25.0, 2);
    assert s1 == RoiStep(RoiInit(base), base, 100.0, 1, 5.0, -25.0);
    assert s1.inTrade && s1.tradeDirection == 1 && s1.entryPrice == Some(100.0);
    RoiLongAverages(s1, base, 70.0, 2, 5.0, -25.0);
  }

  /** A ROI exactly at the threshold already averages down (the comparison is
      `<=`), here 100 then 75, a ROI of exactly -25. */
  lemma RoiAveragesAtThreshold()
    ensures var base := Strategy([Hold, Buy, Hold], [Hold, Hold, Hold], 3);
            RoiRun([100.0, 100.0, 75.0], base, 5.0, -25.0, 3).long[2] == Buy
  {
    var base := Strategy([Hold, Buy, Hold], [Hold, Hold, Hold], 3);
    var xs := [100.0, 100.0, 75.0];
    var s1 := RoiRun(xs, base, 5.0, -25.0, 2);
    assert s1 == RoiStep(RoiInit(base), base, 100.0, 1, 5.0, -25.0);
    assert s1.inTrade && s1.tradeDirection == 1 && s1.entryPrice == Some(100.0);
    RoiLongAverages(s1, base, 75.0, 2, 5.0, -25.0);
  }

  /** Test scenario: short entry at bar 1 at 100, then 94 is a 6% short ROI, a short SELL. */
  lemma RoiShortClosesAtTarget()
    ensures var base := Strategy([Hold, Hold, Hold], [Hold, Buy, Hold], 3);
            RoiRun([100.0, 100.0, 94.0], base, 5.0, -25.0, 3).short[2] == Sell
  {
    var base := Strategy([Hold, Hold, Hold], [Hold, Buy, Hold], 3);
    var xs := [100.0, 100.0, 94.0];
    var s1 := RoiRun(xs, base, 5.0, -25.0, 2);
    assert s1 == RoiStep(RoiInit(base), base, 100.0, 1, 5.0, -25.0);
    assert s1.inTrade && s1.tradeDirection == -1 && s1.entryPrice == Some(100.0);
    RoiShortTakesProfit(s1, base, 94.0, 2, 5.0, -25.0);
  }
}
