/** Realized PnL: per-group replay into rounds (a round runs from flat to flat),
    its summary statistics, the closed-trade list, and their aggregation over all
    groups (src/engine/tradingEngine.ts:168-434). */
module Ledger {
  import opened Wrappers
  import opened Types
  import opened EngineMath
  import opened Dca

  /** The statistics of one group; `best`/`worst` are None where the source
      holds an infinity. */
  datatype GroupStats = GroupStats(
    totalRealizedPnL: real,
    totalFeesClosed: real,
    tradeCount: nat,
    winCount: nat,
    lossCount: nat,
    best: Option<real>,
    worst: Option<real>,
    holdSum: int)

  const NoStats := GroupStats(0.0, 0.0, 0, 0, 0, None, None, 0)

  /** `if (x > best) best = x` with best starting at negative infinity. */
  function MaxOpt(a: Option<real>, x: real): (m: Option<real>)
    ensures m.Some? && (a.Some? ==> m.value >= a.value) && m.value >= x
    ensures m.value == x || m == a
  {
    if a.None? || x > a.value then Some(x) else a
  }

  /** `if (x < worst) worst = x` with worst starting at positive infinity. */
  function MinOpt(a: Option<real>, x: real): (m: Option<real>)
    ensures m.Some? && (a.Some? ==> m.value <= a.value) && m.value <= x
    ensures m.value == x || m == a
  {
    if a.None? || x < a.value then Some(x) else a
  }

  /** Books one finished round: counted, summed, classified win / loss / neither. */
  function CloseRound(g: GroupStats, roundPnL: real, hold: int): (r: GroupStats)
    ensures r.tradeCount == g.tradeCount + 1
    ensures r.winCount == g.winCount + (if roundPnL > 0.0 then 1 else 0)
    ensures r.lossCount == g.lossCount + (if roundPnL < 0.0 then 1 else 0)
  {
    g.(tradeCount := g.tradeCount + 1,
       totalRealizedPnL := g.totalRealizedPnL + roundPnL,
       winCount := if roundPnL > 0.0 then g.winCount + 1 else g.winCount,
       lossCount := if roundPnL > 0.0 then g.lossCount else if roundPnL < 0.0 then g.lossCount + 1 else g.lossCount,
       best := MaxOpt(g.best, roundPnL),
       worst := MinOpt(g.worst, roundPnL),
       holdSum := g.holdSum + hold)
  }

  /** The open quantity of a group, kept with the same bookkeeping as the
      position accumulator (the symbol field plays no part). */
  function InitLot(posSide: PosSide): (a: Acc)
    ensures ValidAcc(a) && a.qty == 0.0 && a.posSide == posSide
  {
    NewAcc(Key("", posSide))
  }

  /** The figures of one closing fill. */
  datatype Fill = Fill(closeSize: real, feesPart: real, closeFee: real, realized: Realized)

  function CloseFill(lot: Acc, o: Order, posSide: PosSide): (f: Fill)
    ensures lot.qty > 0.0 && o.size > 0.0 ==> 0.0 < f.closeSize <= lot.qty
    ensures f.closeSize <= o.size
    ensures f.realized.net == f.realized.gross - f.feesPart - f.closeFee
  {
    var closeSize := Min(lot.qty, o.size);
    var feesPart := ProrataFees(lot.fees, lot.qty, closeSize);
    var closeFee := FeeOf(o);
    Fill(closeSize, feesPart, closeFee, ComputeRealized(o.priceAvg, lot.avg, posSide, closeSize, feesPart, closeFee))
  }

  // ----- computeRealizedStatsForGroup -----

  datatype StatsState = StatsState(lot: Acc, roundPnL: real, stats: GroupStats)

  function StatsStep(st: StatsState, o: Order, posSide: PosSide): StatsState {
    if !IsValidOrder(o) then st
    else if o.side == Some(OpenSideFor(posSide)) then st.(lot := ApplyOpen(st.lot, o.size, o.priceAvg, o))
    else if st.lot.qty > 0.0 then
      var f := CloseFill(st.lot, o, posSide);
      var roundPnL := st.roundPnL + f.realized.net;
      var stats := st.stats.(totalFeesClosed := st.stats.totalFeesClosed + (f.feesPart + f.closeFee));
      var lot := ApplyClose(st.lot, o.size, o);
      if lot.qty == 0.0 then
        var hold := if st.lot.openedAt.Some? then o.createdAt - st.lot.openedAt.value else 0;
        StatsState(lot, 0.0, CloseRound(stats, roundPnL, hold))
      else StatsState(lot, roundPnL, stats)
    else st
  }

  function StatsRun(list: seq<Order>, posSide: PosSide): StatsState {
    if list == [] then StatsState(InitLot(posSide), 0.0, NoStats)
    else StatsStep(StatsRun(list[..|list| - 1], posSide), list[|list| - 1], posSide)
  }

  // ----- computeClosedTradesForGroup -----

  datatype TradesState = TradesState(
    lot: Acc,
    closedSizeSum: real,
    grossSum: real,
    feesOpenUsedSum: real,
    feesCloseSum: real,
    realizedSum: real,
    lastCloseOrderId: Option<string>,
    trades: seq<ClosedTrade>)

  function TradesStep(st: TradesState, o: Order, symbol: string, posSide: PosSide): TradesState {
    if !IsValidOrder(o) then st
    else if o.side == Some(OpenSideFor(posSide)) then st.(lot := ApplyOpen(st.lot, o.size, o.priceAvg, o))
    else if st.lot.qty > 0.0 then
      var f := CloseFill(st.lot, o, posSide);
      var s1 := st.(
        lot := ApplyClose(st.lot, o.size, o),
        closedSizeSum := st.closedSizeSum + f.closeSize,
        grossSum := st.grossSum + f.realized.gross,
        feesOpenUsedSum := st.feesOpenUsedSum + f.feesPart,
        feesCloseSum := st.feesCloseSum + f.closeFee,
        realizedSum := st.realizedSum + f.realized.net,
        lastCloseOrderId := o.id);
      if s1.lot.qty == 0.0 && st.lot.openedAt.Some? then
        var t := ClosedTrade(symbol, posSide, s1.closedSizeSum, s1.realizedSum, s1.grossSum,
                             s1.feesOpenUsedSum, s1.feesCloseSum, st.lot.openedAt.value, o.createdAt,
                             s1.lastCloseOrderId);
        s1.(trades := st.trades + [t], closedSizeSum := 0.0, grossSum := 0.0, feesOpenUsedSum := 0.0,
            feesCloseSum := 0.0, realizedSum := 0.0)
      else s1
    else st
  }

  function TradesRun(list: seq<Order>, symbol: string, posSide: PosSide): TradesState {
    if list == [] then TradesState(InitLot(posSide), 0.0, 0.0, 0.0, 0.0, 0.0, None, [])
    else TradesStep(TradesRun(list[..|list| - 1], symbol, posSide), list[|list| - 1], symbol, posSide)
  }
  /** One order of the statistics replay: an invalid order or a close with
      nothing open changes nothing; an opening order only grows the lot; a
      close shrinks the lot by at most its size, books its fees as closed, and
      counts one finished round exactly when the lot becomes flat. */
  lemma StatsStepCases(st: StatsState, o: Order, posSide: PosSide)
    ensures var r := StatsStep(st, o, posSide);
            && (!IsValidOrder(o) ==> r == st)
            && (IsValidOrder(o) && o.side == Some(OpenSideFor(posSide)) ==>
                  r.lot.qty == st.lot.qty + o.size && r.stats == st.stats && r.roundPnL == st.roundPnL)
            && (IsValidOrder(o) && o.side != Some(OpenSideFor(posSide)) && st.lot.qty <= 0.0 ==> r == st)
            && (IsValidOrder(o) && o.side != Some(OpenSideFor(posSide)) && st.lot.qty > 0.0 ==>
                  var f := CloseFill(st.lot, o, posSide);
                  && r.lot.qty == st.lot.qty - f.closeSize
                  && r.stats.totalFeesClosed == st.stats.totalFeesClosed + f.feesPart + f.closeFee
                  && (r.lot.qty == 0.0 ==> r.stats.tradeCount == st.stats.tradeCount + 1 && r.roundPnL == 0.0)
                  && (r.lot.qty != 0.0 ==> r.stats.tradeCount == st.stats.tradeCount
                                           && r.roundPnL == st.roundPnL + f.realized.net))
  {
  }

  /** One order of the closed-trade replay: an invalid order or a close with
      nothing open changes nothing; an opening order only grows the lot; a
      close shrinks the lot and adds one trade, the finished round, exactly
      when the lot becomes flat with an opening time. Trades are only appended. */
  lemma TradesStepCases(st: TradesState, o: Order, symbol: string, posSide: PosSide)
    ensures var r := TradesStep(st, o, symbol, posSide);
            && (!IsValidOrder(o) ==> r == st)
            && (IsValidOrder(o) && o.side == Some(OpenSideFor(posSide)) ==>
                  r.lot.qty == st.lot.qty + o.size && r.trades == st.trades)
            && (IsValidOrder(o) && o.side != Some(OpenSideFor(posSide)) && st.lot.qty <= 0.0 ==> r == st)
            && (IsValidOrder(o) && o.side != Some(OpenSideFor(posSide)) && st.lot.qty > 0.0 ==>
                  var f := CloseFill(st.lot, o, posSide);
                  && r.lot.qty == st.lot.qty - f.closeSize
                  && (if r.lot.qty == 0.0 && st.lot.openedAt.Some?
                      then |r.trades| == |st.trades| + 1 && r.trades[..|st.trades|] == st.trades
                           && r.trades[|st.trades|].closedAt == o.createdAt
                           && r.trades[|st.trades|].openedAt == st.lot.openedAt.value
                           && r.trades[|st.trades|].symbol == symbol
                      else r.trades == st.trades))
  {
  }



  // ----- what the trades add up to -----

  /** Books one closed trade into statistics, fees included. */
  function TradeRound(g: GroupStats, t: ClosedTrade): GroupStats {
    CloseRound(g.(totalFeesClosed := g.totalFeesClosed + (t.feesOpenUsed + t.feesClose)),
               t.realizedPnl, t.closedAt - t.openedAt)
  }

  /** The statistics a list of closed trades stands for. */
  function Summary(ts: seq<ClosedTrade>): GroupStats {
    if ts == [] then NoStats else TradeRound(Summary(ts[..|ts| - 1]), ts[|ts| - 1])
  }

  /** Adds the fees booked by a round that is still open. */
  function WithOpenFees(g: GroupStats, fees: real): GroupStats {
    g.(totalFeesClosed := g.totalFeesClosed + fees)
  }

  function SumSize(ts: seq<ClosedTrade>): real {
    if ts == [] then 0.0 else SumSize(ts[..|ts| - 1]) + ts[|ts| - 1].size
  }

  function SumFeesOpenUsed(ts: seq<ClosedTrade>): real {
    if ts == [] then 0.0 else SumFeesOpenUsed(ts[..|ts| - 1]) + ts[|ts| - 1].feesOpenUsed
  }

  /** Quantity opened by the valid opening orders of a group. */
  function Opened(list: seq<Order>, posSide: PosSide): real {
    if list == [] then 0.0
    else
      var o := list[|list| - 1];
      Opened(list[..|list| - 1], posSide)
        + (if IsValidOrder(o) && o.side == Some(OpenSideFor(posSide)) then o.size else 0.0)
  }

  /** Fees paid by the valid opening orders of a group. */
  function OpenFees(list: seq<Order>, posSide: PosSide): real {
    if list == [] then 0.0
    else
      var o := list[|list| - 1];
      OpenFees(list[..|list| - 1], posSide)
        + (if IsValidOrder(o) && o.side == Some(OpenSideFor(posSide)) then FeeOf(o) else 0.0)
  }

  /** The invariant of the closed-trade replay. */
  ghost predicate TradesInv(t: TradesState, list: seq<Order>, posSide: PosSide) {
    && ValidAcc(t.lot)
    && t.lot.posSide == posSide
    && t.closedSizeSum >= 0.0
    && t.realizedSum == t.grossSum - t.feesOpenUsedSum - t.feesCloseSum
    && (t.lot.qty == 0.0 ==>
          t.closedSizeSum == 0.0 && t.grossSum == 0.0 && t.feesOpenUsedSum == 0.0
          && t.feesCloseSum == 0.0 && t.realizedSum == 0.0)
    && SumSize(t.trades) + t.closedSizeSum + t.lot.qty == Opened(list, posSide)
    && SumFeesOpenUsed(t.trades) + t.feesOpenUsedSum + t.lot.fees == OpenFees(list, posSide)
    && (forall i :: 0 <= i < |t.trades| ==>
          t.trades[i].size > 0.0
          && t.trades[i].realizedPnl == t.trades[i].grossPnl - t.trades[i].feesOpenUsed - t.trades[i].feesClose)
  }

  lemma FeeSplit(fees: real, qty: real, part: real, rest: real, cs: real, rem: real)
    requires qty > 0.0 && cs + rem == qty
    requires part * qty == fees * cs && rest * qty == fees * rem
    ensures part + rest == fees
  {
    assert (part + rest) * qty == fees * qty;
  }

  lemma SumsAppend(ts: seq<ClosedTrade>, tr: ClosedTrade)
    ensures SumSize(ts + [tr]) == SumSize(ts) + tr.size
    ensures SumFeesOpenUsed(ts + [tr]) == SumFeesOpenUsed(ts) + tr.feesOpenUsed
  {
    assert (ts + [tr])[..|ts + [tr]| - 1] == ts;
  }

  /** A valid opening order keeps the invariant. */
  lemma TradesOpenInv(t: TradesState, list: seq<Order>, o: Order, symbol: string, posSide: PosSide)
    requires TradesInv(t, list, posSide)
    requires IsValidOrder(o) && o.side == Some(OpenSideFor(posSide))
    ensures TradesInv(TradesStep(t, o, symbol, posSide), list + [o], posSide)
  {
    var l2 := list + [o];
    assert l2[..|l2| - 1] == list;
    assert Opened(l2, posSide) == Opened(list, posSide) + o.size;
    assert OpenFees(l2, posSide) == OpenFees(list, posSide) + FeeOf(o);
  }

  /** A close splits the lot: the closed part and the rest add up to the lot's
      quantity and to its fees. */
  lemma CloseSplitsLot(lot: Acc, o: Order, posSide: PosSide)
    requires ValidAcc(lot) && lot.qty > 0.0 && o.size > 0.0
    ensures var f := CloseFill(lot, o, posSide);
            var rest := ApplyClose(lot, o.size, o);
            && f.closeSize > 0.0
            && f.closeSize + rest.qty == lot.qty
            && f.feesPart + rest.fees == lot.fees
            && ValidAcc(rest)
  {
    var f := CloseFill(lot, o, posSide);
    var rest := ApplyClose(lot, o.size, o);
    assert f.feesPart * lot.qty == lot.fees * f.closeSize;
    assert rest.fees * lot.qty == lot.fees * rest.qty;
    FeeSplit(lot.fees, lot.qty, f.feesPart, rest.fees, f.closeSize, rest.qty);
  }

  /** A valid closing order against an open lot keeps the invariant. */
  lemma TradesCloseInv(t: TradesState, list: seq<Order>, o: Order, symbol: string, posSide: PosSide)
    requires TradesInv(t, list, posSide)
    requires IsValidOrder(o) && o.side != Some(OpenSideFor(posSide)) && t.lot.qty > 0.0
    ensures TradesInv(TradesStep(t, o, symbol, posSide), list + [o], posSide)
  {
    var l2 := list + [o];
    assert l2[..|l2| - 1] == list;
    assert Opened(l2, posSide) == Opened(list, posSide);
    assert OpenFees(l2, posSide) == OpenFees(list, posSide);
    CloseSplitsLot(t.lot, o, posSide);
    var r := TradesStep(t, o, symbol, posSide);
    if r.trades != t.trades {
      var tr := r.trades[|r.trades| - 1];
      assert r.trades == t.trades + [tr];
      SumsAppend(t.trades, tr);
    }
  }

  lemma TradesStepInv(t: TradesState, list: seq<Order>, o: Order, symbol: string, posSide: PosSide)
    requires TradesInv(t, list, posSide)
    ensures TradesInv(TradesStep(t, o, symbol, posSide), list + [o], posSide)
  {
    if !IsValidOrder(o) {
      var l2 := list + [o];
      assert l2[..|l2| - 1] == list;
    } else if o.side == Some(OpenSideFor(posSide)) {
      TradesOpenInv(t, list, o, symbol, posSide);
    } else if t.lot.qty > 0.0 {
      TradesCloseInv(t, list, o, symbol, posSide);
    } else {
      var l2 := list + [o];
      assert l2[..|l2| - 1] == list;
    }
  }

  /** The closed-trade replay keeps its invariant: every unit and every opening
      fee is either in a closed trade, in the open round, or still open. */
  lemma {:induction false} TradesRunInv(list: seq<Order>, symbol: string, posSide: PosSide)
    ensures TradesInv(TradesRun(list, symbol, posSide), list, posSide)
  {
    if list != [] {
      var init := list[..|list| - 1];
      TradesRunInv(init, symbol, posSide);
      assert init + [list[|list| - 1]] == list;
      TradesStepInv(TradesRun(init, symbol, posSide), init, list[|list| - 1], symbol, posSide);
    }
  }

  /** Once a group is flat, its closed trades account for every opened unit and
      for every opening fee, and each trade's net PnL is its gross minus its fees. */
  lemma FlatGroupAccountsForAll(list: seq<Order>, symbol: string, posSide: PosSide)
    requires TradesRun(list, symbol, posSide).lot.qty == 0.0
    ensures var ts := TradesRun(list, symbol, posSide).trades;
            && SumSize(ts) == Opened(list, posSide)
            && SumFeesOpenUsed(ts) == OpenFees(list, posSide)
            && forall i :: 0 <= i < |ts| ==>
                 ts[i].size > 0.0 && ts[i].realizedPnl == ts[i].grossPnl - ts[i].feesOpenUsed - ts[i].feesClose
  {
    TradesRunInv(list, symbol, posSide);
  }

  // ----- the two replays agree -----

  ghost predicate Agree(s: StatsState, t: TradesState) {
    && s.lot == t.lot
    && ValidAcc(s.lot)
    && s.roundPnL == t.realizedSum
    && s.stats == WithOpenFees(Summary(t.trades), t.feesOpenUsedSum + t.feesCloseSum)
  }

  /** One order keeps the two replays in agreement. */
  lemma AgreeStep(s: StatsState, t: TradesState, o: Order, symbol: string, posSide: PosSide)
    requires Agree(s, t)
    ensures Agree(StatsStep(s, o, posSide), TradesStep(t, o, symbol, posSide))
  {
    if IsValidOrder(o) && o.side != Some(OpenSideFor(posSide)) && t.lot.qty > 0.0 {
      AgreeClose(s, t, o, symbol, posSide);
    }
  }

  lemma AgreeClose(s: StatsState, t: TradesState, o: Order, symbol: string, posSide: PosSide)
    requires Agree(s, t)
    requires IsValidOrder(o) && o.side != Some(OpenSideFor(posSide)) && t.lot.qty > 0.0
    ensures Agree(StatsStep(s, o, posSide), TradesStep(t, o, symbol, posSide))
  {
    var f := CloseFill(t.lot, o, posSide);
    var lot := ApplyClose(t.lot, o.size, o);
    var s2 := StatsStep(s, o, posSide);
    var t2 := TradesStep(t, o, symbol, posSide);
    var booked := WithOpenFees(s.stats, f.feesPart + f.closeFee);
    if lot.qty == 0.0 {
      var tr := ClosedTrade(symbol, posSide, t.closedSizeSum + f.closeSize, t.realizedSum + f.realized.net,
                            t.grossSum + f.realized.gross, t.feesOpenUsedSum + f.feesPart,
                            t.feesCloseSum + f.closeFee, t.lot.openedAt.value, o.createdAt, o.id);
      assert t2.trades == t.trades + [tr];
      assert (t.trades + [tr])[..|t.trades + [tr]| - 1] == t.trades;
      assert Summary(t2.trades) == TradeRound(Summary(t.trades), tr);
      assert s2.stats == CloseRound(booked, s.roundPnL + f.realized.net, o.createdAt - t.lot.openedAt.value);
    } else {
      assert s2.stats == booked;
    }
  }

  /** The statistics replay and the closed-trade replay of a group agree: its
      trade count, PnL total, win and loss counts, best, worst and holding time
      are those of its closed trades, and its closed fees are theirs plus those
      already booked by a round still open. */
  lemma {:induction false} StatsRunAgree(list: seq<Order>, symbol: string, posSide: PosSide)
    ensures Agree(StatsRun(list, posSide), TradesRun(list, symbol, posSide))
  {
    if list != [] {
      var init := list[..|list| - 1];
      StatsRunAgree(init, symbol, posSide);
      AgreeStep(StatsRun(init, posSide), TradesRun(init, symbol, posSide), list[|list| - 1], symbol, posSide);
    }
  }

  // ----- grouping (groupOrdersBySymbolSide) -----

  /** Group keys in order of first appearance among the orders with symbol and sides. */
  function GroupKeys(log: seq<Order>): (ks: seq<Key>)
    ensures forall i, j :: 0 <= i < j < |ks| ==> ks[i] != ks[j]
  {
    if log == [] then []
    else
      var ks := GroupKeys(log[..|log| - 1]);
      var o := log[|log| - 1];
      if HasFields(o) && KeyOf(o) !in ks then ks + [KeyOf(o)] else ks
  }

  /** A group: the orders with symbol and sides of one key, in log order. */
  function GroupOf(log: seq<Order>, k: Key): (g: seq<Order>)
    ensures forall i :: 0 <= i < |g| ==> HasFields(g[i]) && KeyOf(g[i]) == k
  {
    if log == [] then []
    else
      var o := log[|log| - 1];
      GroupOf(log[..|log| - 1], k) + (if HasFields(o) && KeyOf(o) == k then [o] else [])
  }

  /** A key is a group key exactly when some order with symbol and sides has it,
      and then its group is not empty. */
  lemma {:induction false} GroupKeysComplete(log: seq<Order>, k: Key)
    ensures k in GroupKeys(log) <==> exists i :: 0 <= i < |log| && HasFields(log[i]) && KeyOf(log[i]) == k
    ensures k in GroupKeys(log) ==> GroupOf(log, k) != []
    ensures k !in GroupKeys(log) ==> GroupOf(log, k) == []
  {
    if log != [] {
      var init := log[..|log| - 1];
      GroupKeysComplete(init, k);
      if k in GroupKeys(init) {
        var i :| 0 <= i < |init| && HasFields(init[i]) && KeyOf(init[i]) == k;
        assert log[i] == init[i];
      }
      if exists i :: 0 <= i < |log| && HasFields(log[i]) && KeyOf(log[i]) == k {
        var i :| 0 <= i < |log| && HasFields(log[i]) && KeyOf(log[i]) == k;
        if i < |init| {
          assert init[i] == log[i];
        }
      }
    }
  }

  // ----- getRealizedPnLStats and getClosedTrades -----

  /** Adds one group's statistics to the running aggregate. */
  function Merge(a: GroupStats, g: GroupStats): GroupStats {
    GroupStats(
      a.totalRealizedPnL + g.totalRealizedPnL,
      a.totalFeesClosed + g.totalFeesClosed,
      a.tradeCount + g.tradeCount,
      a.winCount + g.winCount,
      a.lossCount + g.lossCount,
      if g.best.Some? then MaxOpt(a.best, g.best.value) else a.best,
      if g.worst.Some? then MinOpt(a.worst, g.worst.value) else a.worst,
      a.holdSum + g.holdSum)
  }

  function AggregateOver(log: seq<Order>, keys: seq<Key>): GroupStats {
    if keys == [] then NoStats
    else
      var k := keys[|keys| - 1];
      Merge(AggregateOver(log, keys[..|keys| - 1]), StatsRun(GroupOf(log, k), k.posSide).stats)
  }

  function OpenRoundFeesOver(log: seq<Order>, keys: seq<Key>): real {
    if keys == [] then 0.0
    else
      var k := keys[|keys| - 1];
      var t := TradesRun(GroupOf(log, k), k.symbol, k.posSide);
      OpenRoundFeesOver(log, keys[..|keys| - 1]) + (t.feesOpenUsedSum + t.feesCloseSum)
  }

  function TradesOver(log: seq<Order>, keys: seq<Key>): seq<ClosedTrade> {
    if keys == [] then []
    else
      var k := keys[|keys| - 1];
      TradesOver(log, keys[..|keys| - 1]) + TradesRun(GroupOf(log, k), k.symbol, k.posSide).trades
  }

  /** `getClosedTrades` on a log already in replay order. */
  function ClosedTradesOf(log: seq<Order>): seq<ClosedTrade> {
    TradesOver(log, GroupKeys(log))
  }

  /** The final figures: rates and averages over the trade count, 0 without trades. */
  function Finalize(a: GroupStats): (r: RealizedPnLStats)
    ensures r.tradeCount == a.tradeCount && r.winCount == a.winCount && r.lossCount == a.lossCount
    ensures a.tradeCount > 0 ==> r.winRate * (a.tradeCount as real) == a.winCount as real
    ensures a.tradeCount > 0 ==> r.avgProfit * (a.tradeCount as real) == a.totalRealizedPnL
    ensures a.tradeCount > 0 ==> r.avgHoldMs * (a.tradeCount as real) == a.holdSum as real
    ensures a.tradeCount == 0 ==> r.winRate == 0.0 && r.avgProfit == 0.0 && r.avgHoldMs == 0.0
    ensures r.best == a.best.GetOr(0.0) && r.worst == a.worst.GetOr(0.0)
  {
    var n := a.tradeCount as real;
    RealizedPnLStats(
      a.totalRealizedPnL, a.totalFeesClosed, a.tradeCount, a.winCount, a.lossCount,
      if a.tradeCount > 0 then (a.winCount as real) / n else 0.0,
      if a.tradeCount > 0 then a.totalRealizedPnL / n else 0.0,
      a.best.GetOr(0.0), a.worst.GetOr(0.0),
      if a.tradeCount > 0 then (a.holdSum as real) / n else 0.0)
  }

  /** `getRealizedPnLStats` on a log already in replay order. */
  function RealizedStatsOf(log: seq<Order>): RealizedPnLStats {
    Finalize(AggregateOver(log, GroupKeys(log)))
  }

  /** Merging in statistics is the same as booking their trades one by one. */
  lemma MergeTradeRound(a: GroupStats, g: GroupStats, t: ClosedTrade)
    ensures Merge(a, TradeRound(g, t)) == TradeRound(Merge(a, g), t)
  {
  }

  lemma MergeNone(a: GroupStats)
    ensures Merge(a, NoStats) == a
  {
  }

  lemma {:induction false} SummaryAppend(a: seq<ClosedTrade>, b: seq<ClosedTrade>)
    ensures Summary(a + b) == Merge(Summary(a), Summary(b))
  {
    if b == [] {
      assert a + b == a;
      MergeNone(Summary(a));
    } else {
      var b0, last := b[..|b| - 1], b[|b| - 1];
      SummaryAppend(a, b0);
      assert (a + b)[..|a + b| - 1] == a + b0;
      calc {
        Summary(a + b);
        TradeRound(Summary(a + b0), last);
        TradeRound(Merge(Summary(a), Summary(b0)), last);
        { MergeTradeRound(Summary(a), Summary(b0), last); }
        Merge(Summary(a), TradeRound(Summary(b0), last));
        Merge(Summary(a), Summary(b));
      }
    }
  }

  /** Booked fees pass through a merge. */
  lemma MergeWithOpenFees(a: GroupStats, x: real, b: GroupStats, y: real)
    ensures Merge(WithOpenFees(a, x), WithOpenFees(b, y)) == WithOpenFees(Merge(a, b), x + y)
  {
  }

  /** One more group in the aggregate: its statistics merge in, its trades
      append and its open-round fees add up. */
  lemma AggregateStep(before: seq<ClosedTrade>, feesBefore: real, agg: GroupStats,
                      trades: seq<ClosedTrade>, fees: real, stats: GroupStats)
    requires agg == WithOpenFees(Summary(before), feesBefore)
    requires stats == WithOpenFees(Summary(trades), fees)
    ensures Merge(agg, stats) == WithOpenFees(Summary(before + trades), feesBefore + fees)
  {
    SummaryAppend(before, trades);
    MergeWithOpenFees(Summary(before), feesBefore, Summary(trades), fees);
  }

  lemma {:induction false} AggregateMatchesTrades(log: seq<Order>, keys: seq<Key>)
    ensures AggregateOver(log, keys) == WithOpenFees(Summary(TradesOver(log, keys)), OpenRoundFeesOver(log, keys))
  {
    if keys != [] {
      var k := keys[|keys| - 1];
      var init := keys[..|keys| - 1];
      var group := GroupOf(log, k);
      var t := TradesRun(group, k.symbol, k.posSide);
      AggregateMatchesTrades(log, init);
      StatsRunAgree(group, k.symbol, k.posSide);
      AggregateStep(TradesOver(log, init), OpenRoundFeesOver(log, init), AggregateOver(log, init),
                    t.trades, t.feesOpenUsedSum + t.feesCloseSum, StatsRun(group, k.posSide).stats);
    }
  }

  /** `getRealizedPnLStats` and `getClosedTrades` agree over the whole log: the
      statistics are those of the closed trades, except that the closed fees also
      hold what the rounds still open have already booked. */
  lemma RealizedStatsMatchClosedTrades(log: seq<Order>)
    ensures var keys := GroupKeys(log);
            AggregateOver(log, keys) == WithOpenFees(Summary(ClosedTradesOf(log)), OpenRoundFeesOver(log, keys))
  {
    AggregateMatchesTrades(log, GroupKeys(log));
  }

  /** The counts and extremes of a trade list. */
  lemma {:induction false} SummaryCounts(ts: seq<ClosedTrade>)
    ensures Summary(ts).tradeCount == |ts|
    ensures Summary(ts).winCount + Summary(ts).lossCount <= Summary(ts).tradeCount
    ensures Summary(ts).best.Some? <==> ts != []
    ensures Summary(ts).worst.Some? <==> ts != []
    ensures ts != [] ==> Summary(ts).worst.value <= Summary(ts).best.value
    ensures forall i :: 0 <= i < |ts| ==> Summary(ts).worst.value <= ts[i].realizedPnl <= Summary(ts).best.value
  {
    if ts != [] {
      var init := ts[..|ts| - 1];
      SummaryCounts(init);
      forall i | 0 <= i < |ts| - 1
        ensures Summary(ts).worst.value <= ts[i].realizedPnl <= Summary(ts).best.value
      {
        assert ts[i] == init[i];
      }
    }
  }

  lemma FinalizeBounds(a: GroupStats)
    requires a.winCount + a.lossCount <= a.tradeCount
    requires a.best.Some? <==> a.tradeCount > 0
    requires a.worst.Some? <==> a.tradeCount > 0
    requires a.tradeCount > 0 ==> a.worst.value <= a.best.value
    ensures var r := Finalize(a);
            && 0.0 <= r.winRate <= 1.0
            && r.worst <= r.best
            && (r.tradeCount == 0 ==> r.winRate == 0.0 && r.avgProfit == 0.0 && r.best == 0.0 && r.worst == 0.0)
  {
    if a.tradeCount > 0 {
      var n := a.tradeCount as real;
      assert (a.winCount as real) <= n;
      assert (a.winCount as real) / n <= 1.0;
    }
  }

  /** The realized statistics are well formed: a win rate in [0, 1], wins plus
      losses at most the trades, best at least worst, and all zero without trades. */
  lemma RealizedStatsBounds(log: seq<Order>)
    ensures var r := RealizedStatsOf(log);
            && r.tradeCount == |ClosedTradesOf(log)|
            && r.winCount + r.lossCount <= r.tradeCount
            && 0.0 <= r.winRate <= 1.0
            && r.worst <= r.best
            && (r.tradeCount == 0 ==> r.winRate == 0.0 && r.avgProfit == 0.0 && r.best == 0.0 && r.worst == 0.0)
  {
    var ts := ClosedTradesOf(log);
    var a := AggregateOver(log, GroupKeys(log));
    RealizedStatsMatchClosedTrades(log);
    SummaryCounts(ts);
    assert a.tradeCount == Summary(ts).tradeCount && a.winCount == Summary(ts).winCount;
    assert a.lossCount == Summary(ts).lossCount;
    assert a.best == Summary(ts).best && a.worst == Summary(ts).worst;
    FinalizeBounds(a);
  }

  /** The lot and the closing fill of the test scenario below. */
  lemma BuyThenSellFill(o1: Order, o2: Order)
    requires o1 == Order(Some("1"), "BTCUSDT", Some(BuySide), Some(Long), 1.0, 100.0, Some(0.0), 0)
    requires o2 == Order(Some("2"), "BTCUSDT", Some(SellSide), Some(Long), 1.0, 120.0, Some(0.1), 2)
    ensures var lot := ApplyOpen(InitLot(Long), 1.0, 100.0, o1);
            var f := CloseFill(lot, o2, Long);
            && lot.qty == 1.0 && lot.openedAt == Some(0)
            && f.closeSize == 1.0 && f.realized.net == 19.9
            && ApplyClose(lot, 1.0, o2).qty == 0.0
  {
    var lot := ApplyOpen(InitLot(Long), 1.0, 100.0, o1);
    assert lot.avg == 100.0 && lot.fees == 0.0;
    var f := CloseFill(lot, o2, Long);
    assert f.feesPart == 0.0 && f.closeFee == 0.1;
    assert f.realized.gross == 20.0;
  }

  /** Test scenario: BUY 1 at 100, SELL 1 at 120 with fee 0.1 is one trade of 19.9. */
  lemma BuyThenSellRealizes(o1: Order, o2: Order)
    requires o1 == Order(Some("1"), "BTCUSDT", Some(BuySide), Some(Long), 1.0, 100.0, Some(0.0), 0)
    requires o2 == Order(Some("2"), "BTCUSDT", Some(SellSide), Some(Long), 1.0, 120.0, Some(0.1), 2)
    ensures var ts := TradesRun([o1, o2], "BTCUSDT", Long).trades;
            |ts| == 1 && ts[0].size == 1.0 && ts[0].realizedPnl == 19.9
    ensures StatsRun([o1, o2], Long).stats.totalRealizedPnL == 19.9
  {
    BuyThenSellFill(o1, o2);
    var l := [o1, o2];
    assert l[..1] == [o1];
    assert [o1][..0] == [];
    var lot := ApplyOpen(InitLot(Long), 1.0, 100.0, o1);
    var t0 := TradesRun([], "BTCUSDT", Long);
    var t1 := TradesRun([o1], "BTCUSDT", Long);
    assert t1 == TradesStep(t0, o1, "BTCUSDT", Long);
    assert t1 == t0.(lot := lot);
    assert TradesRun(l, "BTCUSDT", Long) == TradesStep(t1, o2, "BTCUSDT", Long);
    var s0 := StatsRun([], Long);
    var s1 := StatsRun([o1], Long);
    assert s1 == StatsStep(s0, o1, Long);
    assert s1 == s0.(lot := lot);
    assert StatsRun(l, Long) == StatsStep(s1, o2, Long);
  }

  // ----- what a trade's net PnL already contains -----

  /** A closed trade whose net PnL is its gross PnL minus its opening and closing fees. */
  predicate NetOfFees(t: ClosedTrade) {
    t.realizedPnl == t.grossPnl - t.feesOpenUsed - t.feesClose
  }

  function SumGross(ts: seq<ClosedTrade>): real {
    if ts == [] then 0.0 else SumGross(ts[..|ts| - 1]) + ts[|ts| - 1].grossPnl
  }

  function SumFees(ts: seq<ClosedTrade>): real {
    if ts == [] then 0.0 else SumFees(ts[..|ts| - 1]) + (ts[|ts| - 1].feesOpenUsed + ts[|ts| - 1].feesClose)
  }

  /** Every trade of every group is net of its fees. */
  lemma {:induction false} TradesOverNet(log: seq<Order>, keys: seq<Key>)
    ensures forall i :: 0 <= i < |TradesOver(log, keys)| ==> NetOfFees(TradesOver(log, keys)[i])
  {
    if keys != [] {
      var k := keys[|keys| - 1];
      var prev := TradesOver(log, keys[..|keys| - 1]);
      var ts := TradesRun(GroupOf(log, k), k.symbol, k.posSide).trades;
      TradesOverNet(log, keys[..|keys| - 1]);
      TradesRunInv(GroupOf(log, k), k.symbol, k.posSide);
      forall i | 0 <= i < |prev + ts|
        ensures NetOfFees((prev + ts)[i])
      {
        if i >= |prev| {
          assert (prev + ts)[i] == ts[i - |prev|];
        }
      }
    }
  }

  /** The PnL total of net trades already has their fees taken off, and the
      closed fees are exactly those fees. */
  lemma {:induction false} SummaryOfNetTrades(ts: seq<ClosedTrade>)
    requires forall i :: 0 <= i < |ts| ==> NetOfFees(ts[i])
    ensures Summary(ts).totalRealizedPnL == SumGross(ts) - SumFees(ts)
    ensures Summary(ts).totalFeesClosed == SumFees(ts)
  {
    if ts != [] {
      var init := ts[..|ts| - 1];
      assert forall i :: 0 <= i < |init| ==> init[i] == ts[i];
      SummaryOfNetTrades(init);
      assert NetOfFees(ts[|ts| - 1]);
    }
  }

  /** Over a whole log: the realized PnL is the trades' gross PnL net of their
      fees, and the closed fees are those fees plus what open rounds booked. */
  lemma RealizedStatsNetOfFees(log: seq<Order>)
    ensures var ts := ClosedTradesOf(log);
            && RealizedStatsOf(log).totalRealizedPnL == SumGross(ts) - SumFees(ts)
            && RealizedStatsOf(log).totalFeesClosed == SumFees(ts) + OpenRoundFeesOver(log, GroupKeys(log))
  {
    var ts := ClosedTradesOf(log);
    RealizedStatsMatchClosedTrades(log);
    TradesOverNet(log, GroupKeys(log));
    SummaryOfNetTrades(ts);
  }
}
