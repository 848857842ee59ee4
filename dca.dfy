/** The DCA position accumulator: replaying orders per (symbol, position side)
    into one weighted-average open position (src/engine/tradingEngine.ts:11-21,
    48-98, 118-166, 449-549). */
module Dca {
  import opened Wrappers
  import opened Types
  import opened EngineMath

  datatype Key = Key(symbol: string, posSide: PosSide)

  /** The accumulator of one key: remaining quantity, average entry of that
      quantity, and the opening fees attached to it. */
  datatype Acc = Acc(
    symbol: string,
    posSide: PosSide,
    openSide: OrderSide,
    qty: real,
    avg: real,
    fees: real,
    openedAt: Option<int>,
    lastOrderId: Option<string>)

  /** Accumulators by key, with the keys in insertion order (a JavaScript Map). */
  datatype Book = Book(keys: seq<Key>, accs: map<Key, Acc>)

  /** The accumulator invariant: quantity is never negative, and a flat
      accumulator has no average, no fees and no opening time. */
  predicate ValidAcc(a: Acc) {
    && a.qty >= 0.0
    && a.openSide == OpenSideFor(a.posSide)
    && (a.qty > 0.0 <==> a.openedAt.Some?)
    && (a.qty == 0.0 ==> a.avg == 0.0 && a.fees == 0.0)
  }

  ghost predicate ValidBook(b: Book) {
    && (forall i, j :: 0 <= i < j < |b.keys| ==> b.keys[i] != b.keys[j])
    && b.accs.Keys == set k | k in b.keys
    && (forall k :: k in b.accs ==>
          ValidAcc(b.accs[k]) && b.accs[k].symbol == k.symbol && b.accs[k].posSide == k.posSide)
  }

  function Min(a: real, b: real): real {
    if a <= b then a else b
  }

  function KeyOf(o: Order): Key
    requires o.posSide.Some?
  {
    Key(o.symbol, o.posSide.value)
  }

  function NewAcc(k: Key): (a: Acc)
    ensures ValidAcc(a) && a.qty == 0.0 && a.symbol == k.symbol && a.posSide == k.posSide
  {
    Acc(k.symbol, k.posSide, OpenSideFor(k.posSide), 0.0, 0.0, 0.0, None, None)
  }

  /** A weighted mean of two prices lies between them. */
  lemma WeightedMeanBetween(x: real, wx: real, y: real, wy: real, m: real)
    ensures wx > 0.0 && wy > 0.0 && m * (wx + wy) == x * wx + y * wy ==>
              (x <= y ==> x <= m <= y) && (y <= x ==> y <= m <= x)
  {
    if !(wx > 0.0 && wy > 0.0 && m * (wx + wy) == x * wx + y * wy) {
      return;
    }
    assert (m - x) * (wx + wy) == (y - x) * wy;
    assert (m - y) * (wx + wy) == (x - y) * wx;
    if x <= y {
      assert (y - x) * wy >= 0.0;
      assert (x - y) * wx <= 0.0;
    } else {
      assert (y - x) * wy <= 0.0;
      assert (x - y) * wx >= 0.0;
    }
  }

  /** An opening order: weighted-average entry, fees added, first opening time kept. */
  function ApplyOpen(a: Acc, size: real, price: real, o: Order): (r: Acc)
    requires size > 0.0
    ensures r.qty == a.qty + size
    ensures ValidAcc(a) ==> r.avg * r.qty == a.avg * a.qty + price * size
    ensures a.qty <= 0.0 ==> r.avg == price
    ensures a.qty > 0.0 && a.avg <= price ==> a.avg <= r.avg <= price
    ensures a.qty > 0.0 && price <= a.avg ==> price <= r.avg <= a.avg
    ensures r.fees == a.fees + FeeOf(o)
    ensures r.openedAt == if a.openedAt.Some? then a.openedAt else Some(o.createdAt)
    ensures r.lastOrderId == o.id
    ensures r.symbol == a.symbol && r.posSide == a.posSide && r.openSide == a.openSide
    ensures ValidAcc(a) ==> ValidAcc(r)
  {
    var prevQty := a.qty;
    var newQty := prevQty + size;
    var avg := if prevQty > 0.0 then (a.avg * prevQty + price * size) / newQty else price;
    assert prevQty > 0.0 ==> avg * newQty == a.avg * prevQty + price * size;
    WeightedMeanBetween(a.avg, prevQty, price, size, avg);
    a.(qty := newQty, avg := avg, fees := a.fees + FeeOf(o),
       openedAt := if a.openedAt.Some? then a.openedAt else Some(o.createdAt),
       lastOrderId := o.id)
  }

  /** A closing order: at most the open quantity is closed, the fees shrink with
      the quantity, and a position that becomes flat loses its average and opening time. */
  function ApplyClose(a: Acc, size: real, o: Order): (r: Acc)
    ensures r.qty == a.qty - Min(a.qty, size)
    ensures a.qty >= 0.0 ==> r.qty >= 0.0
    ensures a.qty > 0.0 && size >= a.qty ==> r.qty == 0.0
    ensures a.qty > 0.0 ==> r.fees * a.qty == a.fees * r.qty
    ensures r.qty == 0.0 ==> r.avg == 0.0 && r.openedAt.None?
    ensures r.qty != 0.0 ==> r.avg == a.avg && r.openedAt == a.openedAt
    ensures r.lastOrderId == o.id
    ensures r.symbol == a.symbol && r.posSide == a.posSide && r.openSide == a.openSide
    ensures ValidAcc(a) && a.qty > 0.0 && size > 0.0 ==> ValidAcc(r)
  {
    var prevQty := a.qty;
    var closeSize := Min(prevQty, size);
    var remaining := prevQty - closeSize;
    var fees := if prevQty > 0.0 then a.fees * (remaining / prevQty) else 0.0;
    assert prevQty > 0.0 ==> fees * prevQty == a.fees * remaining by {
      assert prevQty > 0.0 ==> (remaining / prevQty) * prevQty == remaining;
    }
    if remaining == 0.0 then
      a.(qty := remaining, fees := fees, avg := 0.0, openedAt := None, lastOrderId := o.id)
    else
      a.(qty := remaining, fees := fees, lastOrderId := o.id)
  }

  /** `ensureAcc`: the accumulator of `k`, created flat if missing. */
  function EnsureAcc(b: Book, k: Key): (r: Book)
    ensures k in r.accs
    ensures k in b.accs ==> r == b
    ensures k !in b.accs ==> r.keys == b.keys + [k] && r.accs == b.accs[k := NewAcc(k)] && r.accs[k].qty == 0.0
  {
    if k in b.accs then b else Book(b.keys + [k], b.accs[k := NewAcc(k)])
  }

  /** `applyOrderDca`, the per-order step of the position replay: skips orders
      without symbol/sides or with a non-positive price or size; otherwise opens
      or, when something is open, closes the accumulator of the order's key. */
  function ApplyOrderDca(b: Book, o: Order): (r: Book)
    ensures !HasFields(o) || !IsValidOrder(o) ==> r == b
    ensures HasFields(o) && IsValidOrder(o) ==> KeyOf(o) in r.accs
    ensures forall j :: j in b.accs ==> j in r.accs
    ensures forall j :: j in b.accs && !(HasFields(o) && IsValidOrder(o) && j == KeyOf(o)) ==> r.accs[j] == b.accs[j]
  {
    if !HasFields(o) || !IsValidOrder(o) then b
    else
      var k := KeyOf(o);
      var b1 := EnsureAcc(b, k);
      var acc := b1.accs[k];
      if o.side.value == acc.openSide then Book(b1.keys, b1.accs[k := ApplyOpen(acc, o.size, o.priceAvg, o)])
      else if acc.qty > 0.0 then Book(b1.keys, b1.accs[k := ApplyClose(acc, o.size, o)])
      else b1
  }

  /** The replay ignores an order without a symbol, side or position side, and
      one whose price or size is not positive. */
  lemma SkipsUnusableOrders(b: Book, o: Order)
    ensures o.symbol == "" || o.side.None? || o.posSide.None? || o.priceAvg <= 0.0 || o.size <= 0.0
            ==> ApplyOrderDca(b, o) == b
    ensures o.symbol != "" && o.side.Some? && o.posSide.Some? && o.priceAvg > 0.0 && o.size > 0.0
            ==> Key(o.symbol, o.posSide.value) in ApplyOrderDca(b, o).accs
  {
  }

  const EmptyBook := Book([], map[])

  /** Replays a log from the empty book, in log order. */
  function Replay(s: seq<Order>): Book {
    if s == [] then EmptyBook else ApplyOrderDca(Replay(s[..|s| - 1]), s[|s| - 1])
  }

  /** Creating a missing accumulator keeps the book invariant: an existing key
      leaves the book as it was, a missing one is appended to the keys with a
      flat accumulator and no other accumulator changes. */
  lemma EnsureAccValid(b: Book, k: Key)
    requires ValidBook(b)
    ensures ValidBook(EnsureAcc(b, k)) && EnsureAcc(b, k).keys == if k in b.accs then b.keys else b.keys + [k]
    ensures k in b.accs ==> EnsureAcc(b, k) == b
    ensures k !in b.accs ==> EnsureAcc(b, k).accs[k] == NewAcc(k) && EnsureAcc(b, k).accs[k].qty == 0.0
    ensures forall j :: j in b.accs ==> j in EnsureAcc(b, k).accs && EnsureAcc(b, k).accs[j] == b.accs[j]
  {
    if k !in b.accs {
      var r := EnsureAcc(b, k);
      assert r.accs.Keys == (set j | j in b.keys) + {k};
      assert forall i :: 0 <= i < |b.keys| ==> b.keys[i] in b.accs;
    }
  }

  /** Replacing an accumulator by a valid one of the same key keeps the book invariant. */
  lemma UpdateAccValid(b: Book, k: Key, a: Acc)
    requires ValidBook(b) && k in b.accs
    requires ValidAcc(a) && a.symbol == k.symbol && a.posSide == k.posSide
    ensures ValidBook(Book(b.keys, b.accs[k := a]))
  {
    assert b.accs[k := a].Keys == b.accs.Keys;
  }

  lemma ApplyOrderDcaValid(b: Book, o: Order)
    requires ValidBook(b)
    ensures ValidBook(ApplyOrderDca(b, o))
  {
    if HasFields(o) && IsValidOrder(o) {
      var k := KeyOf(o);
      EnsureAccValid(b, k);
      var b1 := EnsureAcc(b, k);
      var acc := b1.accs[k];
      if o.side.value == acc.openSide {
        UpdateAccValid(b1, k, ApplyOpen(acc, o.size, o.priceAvg, o));
      } else if acc.qty > 0.0 {
        UpdateAccValid(b1, k, ApplyClose(acc, o.size, o));
      }
    }
  }

  /** Every replay keeps the accumulator invariant, so quantities stay >= 0. */
  lemma {:induction false} ReplayValid(s: seq<Order>)
    ensures ValidBook(Replay(s))
  {
    if s != [] {
      ReplayValid(s[..|s| - 1]);
      ApplyOrderDcaValid(Replay(s[..|s| - 1]), s[|s| - 1]);
    }
  }

  function Lookup(b: Book, k: Key): Option<Acc> {
    if k in b.accs then Some(b.accs[k]) else None
  }

  /** What one order does to the accumulator of key `k` alone. */
  function AccStep(a: Option<Acc>, o: Order, k: Key): Option<Acc> {
    if !HasFields(o) || !IsValidOrder(o) || KeyOf(o) != k then a
    else
      var acc := if a.Some? then a.value else NewAcc(k);
      if o.side.value == acc.openSide then Some(ApplyOpen(acc, o.size, o.priceAvg, o))
      else if acc.qty > 0.0 then Some(ApplyClose(acc, o.size, o))
      else Some(acc)
  }

  /** The replay of one key in isolation. */
  function ReplayKey(s: seq<Order>, k: Key): Option<Acc> {
    if s == [] then None else AccStep(ReplayKey(s[..|s| - 1], k), s[|s| - 1], k)
  }

  /** `getPosition`'s filter: same symbol and same position side. */
  function Matching(s: seq<Order>, symbol: string, posSide: PosSide): (r: seq<Order>)
    ensures |r| <= |s|
    ensures forall o :: o in r <==> o in s && o.symbol == symbol && o.posSide == Some(posSide)
  {
    if s == [] then []
    else
      var last := s[|s| - 1];
      Matching(s[..|s| - 1], symbol, posSide)
        + (if last.symbol == symbol && last.posSide == Some(posSide) then [last] else [])
  }

  lemma LookupApply(b: Book, o: Order, k: Key)
    ensures Lookup(ApplyOrderDca(b, o), k) == AccStep(Lookup(b, k), o, k)
  {
  }

  /** The full replay, looked up at one key, is the replay of that key alone. */
  lemma {:induction false} ReplayLookup(s: seq<Order>, k: Key)
    ensures Lookup(Replay(s), k) == ReplayKey(s, k)
  {
    if s != [] {
      ReplayLookup(s[..|s| - 1], k);
      LookupApply(Replay(s[..|s| - 1]), s[|s| - 1], k);
    }
  }

  /** Orders of other keys do not touch a key's accumulator. */
  lemma {:induction false} ReplayKeyMatching(s: seq<Order>, k: Key)
    ensures ReplayKey(Matching(s, k.symbol, k.posSide), k) == ReplayKey(s, k)
  {
    if s != [] {
      var init, last := s[..|s| - 1], s[|s| - 1];
      ReplayKeyMatching(init, k);
      var m := Matching(init, k.symbol, k.posSide);
      if last.symbol == k.symbol && last.posSide == Some(k.posSide) {
        assert (m + [last])[..|m + [last]| - 1] == m;
      } else {
        assert m + [] == m;
      }
    }
  }

  /** A position snapshot. Its unrealized PnL is what closing the whole
      quantity at the current price would realize, net of the attached fees. */
  function Snapshot(a: Acc, currentPrice: real, leverage: real): (p: Position)
    ensures p.pnlUnrealized == ComputeRealized(currentPrice, a.avg, a.posSide, a.qty, a.fees, 0.0).net
    ensures p.size == a.qty && p.entryPrice == a.avg && p.totalFee == a.fees
    ensures p.symbol == a.symbol && p.posSide == a.posSide && p.openSide == a.openSide
  {
    var entryPrice := a.avg;
    var pnlDiff := if a.posSide == Long then currentPrice - entryPrice else entryPrice - currentPrice;
    var pnlUnrealized := pnlDiff * a.qty - a.fees;
    var notionalValue := a.qty * currentPrice;
    var marginRequired := MarginRequired(notionalValue, leverage);
    var liquidationPrice := LiquidationPrice(entryPrice, a.qty, a.posSide, marginRequired, a.fees);
    Position(a.symbol, a.posSide, a.openSide, a.qty, entryPrice, currentPrice, pnlUnrealized,
             a.fees, notionalValue, marginRequired, liquidationPrice, a.lastOrderId, a.openedAt)
  }

  /** `getPosition` on a log already in replay order. */
  function PositionOf(log: seq<Order>, symbol: string, posSide: PosSide, currentPrice: real,
                      leverage: real): Option<Position>
  {
    var b := Replay(Matching(log, symbol, posSide));
    var k := Key(symbol, posSide);
    if k !in b.accs || b.accs[k].qty <= 0.0 then None
    else Some(Snapshot(b.accs[k], currentPrice, leverage))
  }

  /** `Number(currentPrices[symbol] || 0)`: a missing price counts as 0. */
  function PriceFor(prices: map<string, real>, symbol: string): real {
    if symbol in prices then prices[symbol] else 0.0
  }

  /** `buildPositionsFromAcc` over the first `keys`: one snapshot per open accumulator. */
  function PositionsOf(b: Book, keys: seq<Key>, prices: map<string, real>, leverage: real): seq<Position> {
    if keys == [] then []
    else
      var k := keys[|keys| - 1];
      PositionsOf(b, keys[..|keys| - 1], prices, leverage)
        + (if k in b.accs && b.accs[k].qty > 0.0
           then [Snapshot(b.accs[k], PriceFor(prices, b.accs[k].symbol), leverage)] else [])
  }

  /** `rebuildAllPositions` on a log already in replay order. */
  function AllPositions(log: seq<Order>, prices: map<string, real>, leverage: real): seq<Position> {
    var b := Replay(log);
    PositionsOf(b, b.keys, prices, leverage)
  }

  /** `getPosition` agrees with the full rebuild: it reports a position exactly
      when the key's accumulator holds a positive quantity. */
  lemma PositionOfAgreesWithReplay(log: seq<Order>, symbol: string, posSide: PosSide,
                                   currentPrice: real, leverage: real)
    ensures var a := Lookup(Replay(log), Key(symbol, posSide));
            PositionOf(log, symbol, posSide, currentPrice, leverage)
              == if a.Some? && a.value.qty > 0.0 then Some(Snapshot(a.value, currentPrice, leverage)) else None
  {
    var k := Key(symbol, posSide);
    ReplayLookup(log, k);
    ReplayLookup(Matching(log, symbol, posSide), k);
    ReplayKeyMatching(log, k);
  }

  /** Every reported position is open, on its key's side, opened by the side's opening orders. */
  lemma {:induction false} PositionsOfAreOpen(b: Book, keys: seq<Key>, prices: map<string, real>, leverage: real)
    requires ValidBook(b)
    ensures forall p :: p in PositionsOf(b, keys, prices, leverage) ==>
              p.size > 0.0 && p.openSide == OpenSideFor(p.posSide) && p.openedAt.Some?
  {
    if keys != [] {
      PositionsOfAreOpen(b, keys[..|keys| - 1], prices, leverage);
    }
  }

  lemma AllPositionsAreOpen(log: seq<Order>, prices: map<string, real>, leverage: real)
    ensures forall p :: p in AllPositions(log, prices, leverage) ==>
              p.size > 0.0 && p.openSide == OpenSideFor(p.posSide) && p.openedAt.Some?
  {
    ReplayValid(log);
    PositionsOfAreOpen(Replay(log), Replay(log).keys, prices, leverage);
  }

  // ----- Portfolio aggregates (getPortfolioStats) -----

  datatype Totals = Totals(
    unrealized: real, feesOpen: real, notional: real, margin: real,
    longCount: nat, shortCount: nat, bySymbol: map<string, SymbolTotals>)

  function AddPosition(t: Totals, p: Position): Totals {
    var prev := if p.symbol in t.bySymbol then t.bySymbol[p.symbol] else SymbolTotals(0.0, 0.0, 0.0);
    var next := SymbolTotals(prev.notional + p.notionalValue, prev.pnlUnrealized + p.pnlUnrealized, prev.size + p.size);
    Totals(
      t.unrealized + p.pnlUnrealized, t.feesOpen + p.totalFee, t.notional + p.notionalValue,
      t.margin + p.marginRequired,
      if p.posSide == Long then t.longCount + 1 else t.longCount,
      if p.posSide == Long then t.shortCount else t.shortCount + 1,
      t.bySymbol[p.symbol := next])
  }

  const NoTotals := Totals(0.0, 0.0, 0.0, 0.0, 0, 0, map[])

  function TotalsOf(ps: seq<Position>): Totals {
    if ps == [] then NoTotals else AddPosition(TotalsOf(ps[..|ps| - 1]), ps[|ps| - 1])
  }

  function PortfolioOf(ps: seq<Position>): PortfolioStats {
    var t := TotalsOf(ps);
    PortfolioStats(ps, |ps|, t.longCount, t.shortCount, t.unrealized, t.feesOpen, t.notional, t.margin, t.bySymbol)
  }

  function CountLong(ps: seq<Position>): nat {
    if ps == [] then 0 else CountLong(ps[..|ps| - 1]) + (if ps[|ps| - 1].posSide == Long then 1 else 0)
  }

  /** Every position is counted once, as long or as short, and the per-symbol
      rollup has exactly the symbols of the positions. */
  lemma {:induction false} PortfolioCounts(ps: seq<Position>)
    ensures PortfolioOf(ps).longCount + PortfolioOf(ps).shortCount == PortfolioOf(ps).countPositions == |ps|
    ensures PortfolioOf(ps).longCount == CountLong(ps)
    ensures PortfolioOf(ps).bySymbol.Keys == set p | p in ps :: p.symbol
  {
    if ps != [] {
      var init := ps[..|ps| - 1];
      PortfolioCounts(init);
      assert ps == init + [ps[|ps| - 1]];
      assert (set p | p in ps :: p.symbol) == (set p | p in init :: p.symbol) + {ps[|ps| - 1].symbol};
    }
  }

  /** A log whose every order has the symbol and side keeps all of it. */
  lemma {:induction false} MatchingAll(s: seq<Order>, symbol: string, posSide: PosSide)
    requires forall o :: o in s ==> o.symbol == symbol && o.posSide == Some(posSide)
    ensures Matching(s, symbol, posSide) == s
  {
    if s != [] {
      assert s == s[..|s| - 1] + [s[|s| - 1]];
      MatchingAll(s[..|s| - 1], symbol, posSide);
    }
  }

  lemma ReplayTwo(o1: Order, o2: Order)
    ensures Replay([o1, o2]) == ApplyOrderDca(ApplyOrderDca(EmptyBook, o1), o2)
  {
    assert [o1][..0] == [];
    assert Replay([o1]) == ApplyOrderDca(EmptyBook, o1);
    assert [o1, o2][..1] == [o1];
  }

  /** An order on its key's opening side adds to that key's accumulator,
      created flat if the key is new. */
  lemma OpenStep(b: Book, o: Order)
    requires HasFields(o) && IsValidOrder(o)
    requires KeyOf(o) in b.accs ==> b.accs[KeyOf(o)].openSide == OpenSideFor(o.posSide.value)
    requires o.side.value == OpenSideFor(o.posSide.value)
    ensures var k := KeyOf(o);
            var a := if k in b.accs then b.accs[k] else NewAcc(k);
            k in ApplyOrderDca(b, o).accs && ApplyOrderDca(b, o).accs[k] == ApplyOpen(a, o.size, o.priceAvg, o)
  {
  }

  /** The replay of two BUYs of size 1 on one long key, at 100 then 110. */
  lemma TwoBuysBook(o1: Order, o2: Order)
    requires HasFields(o1) && o1.side == Some(BuySide) && o1.posSide == Some(Long) && o1.size == 1.0 && o1.priceAvg == 100.0
    requires HasFields(o2) && o2.side == Some(BuySide) && o2.posSide == Some(Long) && o2.size == 1.0 && o2.priceAvg == 110.0
    requires o1.symbol == o2.symbol
    ensures var b := ApplyOrderDca(ApplyOrderDca(EmptyBook, o1), o2); var k := KeyOf(o1);
            k in b.accs && b.accs[k].qty == 2.0 && b.accs[k].avg == 105.0
  {
    var k := KeyOf(o1);
    var b1 := ApplyOrderDca(EmptyBook, o1);
    OpenStep(EmptyBook, o1);
    var a1 := b1.accs[k];
    assert a1.qty == 1.0 && a1.avg == 100.0;
    OpenStep(b1, o2);
    var a2 := ApplyOrderDca(b1, o2).accs[k];
    assert a2.qty == 2.0 && a2.avg * 2.0 == 210.0;
  }

  /** Test scenario: two BUYs of 1 at 100 and 110 give size 2 at entry 105. */
  lemma TwoBuysAverage(o1: Order, o2: Order, price: real, leverage: real)
    requires o1 == Order(Some("1"), "BTCUSDT", Some(BuySide), Some(Long), 1.0, 100.0, Some(0.0), 0)
    requires o2 == Order(Some("2"), "BTCUSDT", Some(BuySide), Some(Long), 1.0, 110.0, Some(0.0), 1)
    ensures var p := PositionOf([o1, o2], "BTCUSDT", Long, price, leverage);
            p.Some? && p.value.size == 2.0 && p.value.entryPrice == 105.0
  {
    MatchingAll([o1, o2], "BTCUSDT", Long);
    ReplayTwo(o1, o2);
    TwoBuysBook(o1, o2);
  }
}
