/** The `TradingEngine` class: an in-memory order log sorted lazily, and the
    queries that replay it (src/engine/tradingEngine.ts:23-549). */
module Engine {
  import opened Wrappers
  import opened Types
  import opened EngineMath
  import opened OrderLog
  import opened Dca
  import opened Ledger

  class TradingEngine {
    const leverage: real
    var orders: seq<Order>
    var isSorted: bool

    /** The log in the order a query replays it. */
    ghost function View(): seq<Order>
      reads this
    {
      if isSorted then orders else SortByTime(orders)
    }

    /** The given orders are kept as they are and flagged as sorted. */
    constructor(orders: seq<Order>, leverage: real)
      ensures this.orders == orders && isSorted && this.leverage == leverage
      ensures View() == orders
    {
      this.leverage := leverage;
      this.orders := orders;
      isSorted := true;
    }

    /** Appends to the log and drops the sorted flag. */
    method AddOrder(order: Order)
      modifies this
      ensures orders == old(orders) + [order] && !isSorted
      ensures View() == Insert(SortByTime(old(orders)), order)
      ensures multiset(View()) == multiset(old(orders)) + multiset{order}
      ensures SortedByTime(View())
      ensures SortedByTime(old(View())) ==> View() == Insert(old(View()), order)
    {
      if isSorted && SortedByTime(orders) {
        SortByTimeOfSorted(orders);
      }
      orders := orders + [order];
      isSorted := false;
      assert orders[..|orders| - 1] == old(orders);
      SortByTimeIsSortedPermutation(orders);
    }

    /** Sorts the log by creation time (a stable sort) unless it is flagged sorted. */
    method EnsureSorted() returns (chrono: seq<Order>)
      modifies this
      ensures chrono == orders == old(View()) && isSorted
      ensures old(isSorted) ==> orders == old(orders)
      ensures !old(isSorted) ==> SortedByTime(chrono) && multiset(chrono) == multiset(old(orders))
    {
      if !isSorted {
        SortByTimeIsSortedPermutation(orders);
        orders := SortByTime(orders);
        isSorted := true;
      }
      chrono := orders;
    }

    /** `getPosition`: the replay of the matching orders only. */
    method GetPosition(symbol: string, posSide: PosSide, currentPrice: real) returns (p: Option<Position>)
      modifies this
      ensures orders == old(View()) && isSorted
      ensures p == PositionOf(orders, symbol, posSide, currentPrice, leverage)
      ensures var a := Lookup(Replay(orders), Key(symbol, posSide));
              p == if a.Some? && a.value.qty > 0.0 then Some(Snapshot(a.value, currentPrice, leverage)) else None
    {
      var chrono := EnsureSorted();
      var filtered := FilterMatching(chrono, symbol, posSide);
      var byKey := ReplayOrders(filtered);
      var key := Key(symbol, posSide);
      if key !in byKey.accs || byKey.accs[key].qty <= 0.0 {
        p := None;
      } else {
        p := Some(Snapshot(byKey.accs[key], currentPrice, leverage));
      }
      PositionOfAgreesWithReplay(orders, symbol, posSide, currentPrice, leverage);
    }

    static method FilterMatching(s: seq<Order>, symbol: string, posSide: PosSide) returns (r: seq<Order>)
      ensures r == Matching(s, symbol, posSide)
    {
      r := [];
      var i := 0;
      while i < |s|
        invariant 0 <= i <= |s|
        invariant r == Matching(s[..i], symbol, posSide)
      {
        assert s[..i + 1][..i] == s[..i];
        if s[i].symbol == symbol && s[i].posSide == Some(posSide) {
          r := r + [s[i]];
        }
        i := i + 1;
      }
      assert s[..|s|] == s;
    }

    /** Applies `applyOrderDca` to every order in turn. */
    static method ReplayOrders(s: seq<Order>) returns (byKey: Book)
      ensures byKey == Replay(s)
      ensures ValidBook(byKey)
    {
      byKey := EmptyBook;
      var i := 0;
      while i < |s|
        invariant 0 <= i <= |s|
        invariant byKey == Replay(s[..i])
      {
        assert s[..i + 1][..i] == s[..i];
        byKey := ApplyOrderDca(byKey, s[i]);
        i := i + 1;
      }
      assert s[..|s|] == s;
      ReplayValid(s);
    }

    /** One snapshot per accumulator with a positive quantity, in key order. */
    method BuildPositionsFromAcc(byKey: Book, currentPrices: map<string, real>) returns (out: seq<Position>)
      ensures out == PositionsOf(byKey, byKey.keys, currentPrices, leverage)
    {
      out := [];
      var keys := byKey.keys;
      var i := 0;
      while i < |keys|
        invariant 0 <= i <= |keys|
        invariant out == PositionsOf(byKey, keys[..i], currentPrices, leverage)
      {
        assert keys[..i + 1][..i] == keys[..i];
        var k := keys[i];
        if k in byKey.accs && byKey.accs[k].qty > 0.0 {
          var acc := byKey.accs[k];
          out := out + [Snapshot(acc, PriceFor(currentPrices, acc.symbol), leverage)];
        }
        i := i + 1;
      }
      assert keys[..|keys|] == keys;
    }

    /** `rebuildAllPositions`: every open position, each with positive size. */
    method RebuildAllPositions(currentPrices: map<string, real>) returns (ps: seq<Position>)
      modifies this
      ensures orders == old(View()) && isSorted
      ensures ps == AllPositions(orders, currentPrices, leverage)
      ensures forall p :: p in ps ==> p.size > 0.0 && p.openSide == OpenSideFor(p.posSide)
    {
      var chrono := EnsureSorted();
      var byKey := ReplayOrders(chrono);
      ps := BuildPositionsFromAcc(byKey, currentPrices);
      AllPositionsAreOpen(orders, currentPrices, leverage);
    }

    /** `getPortfolioStats`: the aggregates of the rebuilt positions. */
    method GetPortfolioStats(currentPrices: map<string, real>) returns (st: PortfolioStats)
      modifies this
      ensures orders == old(View()) && isSorted
      ensures st == PortfolioOf(AllPositions(orders, currentPrices, leverage))
      ensures st.longCount + st.shortCount == st.countPositions == |st.positions|
    {
      var positions := RebuildAllPositions(currentPrices);
      st := AggregatePositions(positions);
      PortfolioCounts(positions);
    }

    static method AggregatePositions(positions: seq<Position>) returns (st: PortfolioStats)
      ensures st == PortfolioOf(positions)
    {
      var totalUnrealizedPnL, totalFeesOpen, totalNotional, totalMargin := 0.0, 0.0, 0.0, 0.0;
      var longCount, shortCount: nat := 0, 0;
      var bySymbol: map<string, SymbolTotals> := map[];
      var i := 0;
      while i < |positions|
        invariant 0 <= i <= |positions|
        invariant TotalsOf(positions[..i])
          == Totals(totalUnrealizedPnL, totalFeesOpen, totalNotional, totalMargin, longCount, shortCount, bySymbol)
      {
        assert positions[..i + 1][..i] == positions[..i];
        ghost var before := Totals(totalUnrealizedPnL, totalFeesOpen, totalNotional, totalMargin, longCount, shortCount,
                                   bySymbol);
        var p := positions[i];
        totalUnrealizedPnL := totalUnrealizedPnL + p.pnlUnrealized;
        totalFeesOpen := totalFeesOpen + p.totalFee;
        totalNotional := totalNotional + p.notionalValue;
        totalMargin := totalMargin + p.marginRequired;
        if p.posSide == Long {
          longCount := longCount + 1;
        } else {
          shortCount := shortCount + 1;
        }
        var prev := if p.symbol in bySymbol then bySymbol[p.symbol] else SymbolTotals(0.0, 0.0, 0.0);
        bySymbol := bySymbol[p.symbol := SymbolTotals(prev.notional + p.notionalValue,
                                                      prev.pnlUnrealized + p.pnlUnrealized, prev.size + p.size)];
        assert Totals(totalUnrealizedPnL, totalFeesOpen, totalNotional, totalMargin, longCount, shortCount, bySymbol)
            == AddPosition(before, p);
        i := i + 1;
      }
      assert positions[..|positions|] == positions;
      st := PortfolioStats(positions, |positions|, longCount, shortCount, totalUnrealizedPnL,
                           totalFeesOpen, totalNotional, totalMargin, bySymbol);
    }

    /** One order of `groupOrdersBySymbolSide`'s loop: appended to its key's
        group, the key registered on first sight. */
    static method GroupOrder(keys: seq<Key>, groups: map<Key, seq<Order>>, seen: seq<Order>, o: Order)
      returns (keys': seq<Key>, groups': map<Key, seq<Order>>)
      requires keys == GroupKeys(seen)
      requires forall k :: k in groups <==> k in keys
      requires forall k :: k in groups ==> groups[k] == GroupOf(seen, k)
      ensures keys' == GroupKeys(seen + [o])
      ensures forall k :: k in groups' <==> k in keys'
      ensures forall k :: k in groups' ==> groups'[k] == GroupOf(seen + [o], k)
    {
      var pre := seen + [o];
      assert pre[..|seen|] == seen;
      keys', groups' := keys, groups;
      if HasFields(o) {
        var key := KeyOf(o);
        if key in groups {
          groups' := groups[key := groups[key] + [o]];
        } else {
          keys' := keys + [key];
          groups' := groups[key := [o]];
        }
      }
      forall k | k in groups'
        ensures groups'[k] == GroupOf(pre, k)
      {
        GroupOfUnseen(pre, k);
        GroupKeysComplete(seen, k);
      }
    }

    /** `groupOrdersBySymbolSide`: the orders with symbol and sides, grouped by key. */
    static method GroupOrdersBySymbolSide(chrono: seq<Order>) returns (keys: seq<Key>, groups: map<Key, seq<Order>>)
      ensures keys == GroupKeys(chrono)
      ensures forall k :: k in keys ==> k in groups && groups[k] == GroupOf(chrono, k)
    {
      keys, groups := [], map[];
      var i := 0;
      while i < |chrono|
        invariant 0 <= i <= |chrono|
        invariant keys == GroupKeys(chrono[..i])
        invariant forall k :: k in groups <==> k in keys
        invariant forall k :: k in groups ==> groups[k] == GroupOf(chrono[..i], k)
      {
        assert chrono[..i + 1] == chrono[..i] + [chrono[i]];
        keys, groups := GroupOrder(keys, groups, chrono[..i], chrono[i]);
        i := i + 1;
      }
      assert chrono[..|chrono|] == chrono;
    }

    /** The totals of `computeRealizedStatsForGroup` when a round closes. */
    static method CloseRoundTotals(g: GroupStats, roundPnL: real, hold: int) returns (r: GroupStats)
      ensures r == CloseRound(g, roundPnL, hold)
    {
      r := g.(tradeCount := g.tradeCount + 1, totalRealizedPnL := g.totalRealizedPnL + roundPnL);
      if roundPnL > 0.0 {
        r := r.(winCount := r.winCount + 1);
      } else if roundPnL < 0.0 {
        r := r.(lossCount := r.lossCount + 1);
      }
      r := r.(best := MaxOpt(g.best, roundPnL), worst := MinOpt(g.worst, roundPnL), holdSum := g.holdSum + hold);
    }

    /** One order of `computeRealizedStatsForGroup`'s loop. */
    static method StatsOrder(lot: Acc, roundPnL: real, stats: GroupStats, o: Order, posSide: PosSide)
      returns (lot': Acc, roundPnL': real, stats': GroupStats)
      ensures StatsState(lot', roundPnL', stats') == StatsStep(StatsState(lot, roundPnL, stats), o, posSide)
    {
      lot', roundPnL', stats' := lot, roundPnL, stats;
      if IsValidOrder(o) {
        if o.side == Some(OpenSideFor(posSide)) {
          lot' := ApplyOpen(lot, o.size, o.priceAvg, o);
        } else if lot.qty > 0.0 {
          var f := CloseFill(lot, o, posSide);
          roundPnL' := roundPnL + f.realized.net;
          stats' := stats.(totalFeesClosed := stats.totalFeesClosed + (f.feesPart + f.closeFee));
          lot' := ApplyClose(lot, o.size, o);
          if lot'.qty == 0.0 {
            var hold := if lot.openedAt.Some? then o.createdAt - lot.openedAt.value else 0;
            stats' := CloseRoundTotals(stats', roundPnL', hold);
            roundPnL' := 0.0;
          }
        }
      }
    }

    /** `computeRealizedStatsForGroup`; the open quantity is kept by the
        position bookkeeping (`processOpenOrder` is `ApplyOpen`, the quantity
        part of `processCloseOrder` is `ApplyClose`). */
    static method ComputeRealizedStatsForGroup(list: seq<Order>, posSide: PosSide) returns (g: GroupStats)
      ensures g == StatsRun(list, posSide).stats
    {
      var lot := InitLot(posSide);
      var roundPnL := 0.0;
      var stats := NoStats;
      var i := 0;
      while i < |list|
        invariant 0 <= i <= |list|
        invariant StatsRun(list[..i], posSide) == StatsState(lot, roundPnL, stats)
      {
        assert list[..i + 1][..i] == list[..i];
        lot, roundPnL, stats := StatsOrder(lot, roundPnL, stats, list[i], posSide);
        i := i + 1;
      }
      assert list[..|list|] == list;
      g := stats;
    }

    /** `computeClosedTradesForGroup`; the trades carry the symbol of the group's first order. */
    static method ComputeClosedTradesForGroup(list: seq<Order>, posSide: PosSide) returns (result: seq<ClosedTrade>)
      ensures result == TradesRun(list, if list == [] then "" else list[0].symbol, posSide).trades
    {
      var symbol := if list == [] then "" else list[0].symbol;
      result := [];
      var lot := InitLot(posSide);
      var closedSizeSum, grossSum, feesOpenUsedSum, feesCloseSum, realizedSum := 0.0, 0.0, 0.0, 0.0, 0.0;
      var lastCloseOrderId: Option<string> := None;
      var openSide := OpenSideFor(posSide);
      var i := 0;
      while i < |list|
        invariant 0 <= i <= |list|
        invariant TradesRun(list[..i], symbol, posSide)
          == TradesState(lot, closedSizeSum, grossSum, feesOpenUsedSum, feesCloseSum, realizedSum, lastCloseOrderId, result)
      {
        assert list[..i + 1][..i] == list[..i];
        var o := list[i];
        ghost var before := TradesState(lot, closedSizeSum, grossSum, feesOpenUsedSum, feesCloseSum, realizedSum,
                                        lastCloseOrderId, result);
        if IsValidOrder(o) {
          if o.side == Some(openSide) {
            lot := ApplyOpen(lot, o.size, o.priceAvg, o);
          } else if lot.qty > 0.0 {
            var f := CloseFill(lot, o, posSide);
            closedSizeSum := closedSizeSum + f.closeSize;
            grossSum := grossSum + f.realized.gross;
            feesOpenUsedSum := feesOpenUsedSum + f.feesPart;
            feesCloseSum := feesCloseSum + f.closeFee;
            realizedSum := realizedSum + f.realized.net;
            lastCloseOrderId := o.id;
            var openedAt := lot.openedAt;
            lot := ApplyClose(lot, o.size, o);
            if lot.qty == 0.0 && openedAt.Some? {
              result := result + [ClosedTrade(symbol, posSide, closedSizeSum, realizedSum, grossSum,
                                              feesOpenUsedSum, feesCloseSum, openedAt.value, o.createdAt,
                                              lastCloseOrderId)];
              closedSizeSum, grossSum, feesOpenUsedSum, feesCloseSum, realizedSum := 0.0, 0.0, 0.0, 0.0, 0.0;
            }
          }
        }
        assert TradesState(lot, closedSizeSum, grossSum, feesOpenUsedSum, feesCloseSum, realizedSum,
                           lastCloseOrderId, result) == TradesStep(before, o, symbol, posSide);
        i := i + 1;
      }
      assert list[..|list|] == list;
    }

    /** `getRealizedPnLStats`: merges the statistics of every group. */
    method GetRealizedPnLStats() returns (r: RealizedPnLStats)
      modifies this
      ensures orders == old(View()) && isSorted
      ensures r == RealizedStatsOf(orders)
      ensures r.tradeCount == |ClosedTradesOf(orders)| && 0.0 <= r.winRate <= 1.0
    {
      var chrono := EnsureSorted();
      var keys, groups := GroupOrdersBySymbolSide(chrono);
      var agg := NoStats;
      var i := 0;
      while i < |keys|
        invariant 0 <= i <= |keys|
        invariant orders == chrono && isSorted
        invariant agg == AggregateOver(chrono, keys[..i])
      {
        assert keys[..i + 1][..i] == keys[..i];
        var k := keys[i];
        var list := groups[k];
        GroupKeysComplete(chrono, k);
        var g := ComputeRealizedStatsForGroup(list, list[0].posSide.value);
        agg := Merge(agg, g);
        i := i + 1;
      }
      assert keys[..|keys|] == keys;
      r := Finalize(agg);
      RealizedStatsBounds(orders);
    }

    /** `getClosedTrades`: the closed trades of every group, group after group. */
    method GetClosedTrades() returns (out: seq<ClosedTrade>)
      modifies this
      ensures orders == old(View()) && isSorted
      ensures out == ClosedTradesOf(orders)
    {
      var chrono := EnsureSorted();
      var keys, groups := GroupOrdersBySymbolSide(chrono);
      out := [];
      var i := 0;
      while i < |keys|
        invariant 0 <= i <= |keys|
        invariant orders == chrono && isSorted
        invariant out == TradesOver(chrono, keys[..i])
      {
        assert keys[..i + 1][..i] == keys[..i];
        var k := keys[i];
        var list := groups[k];
        GroupKeysComplete(chrono, k);
        var ts := ComputeClosedTradesForGroup(list, list[0].posSide.value);
        out := out + ts;
        i := i + 1;
      }
      assert keys[..|keys|] == keys;
    }
  }

  /** Appending an order changes only the group of its own key. */
  lemma GroupOfUnseen(s: seq<Order>, k: Key)
    requires s != []
    ensures GroupOf(s, k) == GroupOf(s[..|s| - 1], k)
              + (if HasFields(s[|s| - 1]) && KeyOf(s[|s| - 1]) == k then [s[|s| - 1]] else [])
  {
  }
}
