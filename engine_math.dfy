/** The engine's pure arithmetic (src/engine/tradingEngine.ts:101-115, 226-243,
    443-447) and its order filters (lines 217, 266-270, 373-374, 467-471). */
module EngineMath {
  import opened Types

  /** `Number(o.fee || 0)`: an absent fee counts as 0. */
  function FeeOf(o: Order): real {
    if o.fee.Some? then o.fee.value else 0.0
  }

  /** A long is opened by BUY orders, a short by SELL orders. */
  function OpenSideFor(posSide: PosSide): (s: OrderSide)
    ensures s == BuySide <==> posSide == Long
    ensures s == SellSide <==> posSide == Short
  {
    match posSide
    case Long => BuySide
    case Short => SellSide
  }

  /** The order carries a symbol, a position side and an order side. */
  predicate HasFields(o: Order) {
    o.symbol != "" && o.posSide.Some? && o.side.Some?
  }

  /** Price and size are positive (finite by construction over reals). */
  predicate IsValidOrder(o: Order) {
    o.priceAvg > 0.0 && o.size > 0.0
  }

  /** The part of the remaining opening fees that goes with `closeSize` of `qty`. */
  function ProrataFees(feesRemaining: real, qty: real, closeSize: real): (r: real)
    ensures qty > 0.0 ==> r * qty == feesRemaining * closeSize
    ensures qty <= 0.0 ==> r == 0.0
    ensures 0.0 <= closeSize <= qty && 0.0 <= feesRemaining ==> 0.0 <= r <= feesRemaining
  {
    if qty > 0.0 then
      var r := feesRemaining * (closeSize / qty);
      assert r * qty == feesRemaining * closeSize by {
        assert (closeSize / qty) * qty == closeSize;
      }
      assert 0.0 <= closeSize <= qty ==> 0.0 <= closeSize / qty <= 1.0;
      r
    else 0.0
  }

  /** Prorating the closed part and the remaining part splits the fees exactly. */
  lemma ProrataFeesSplit(feesRemaining: real, qty: real, closeSize: real)
    requires qty > 0.0
    ensures ProrataFees(feesRemaining, qty, closeSize) + ProrataFees(feesRemaining, qty, qty - closeSize) == feesRemaining
  {
    var a := ProrataFees(feesRemaining, qty, closeSize);
    var b := ProrataFees(feesRemaining, qty, qty - closeSize);
    assert (a + b) * qty == feesRemaining * qty;
  }

  datatype Realized = Realized(gross: real, net: real)

  /** Gross and net PnL of closing `closeSize` at `price` against average `avg`. */
  function ComputeRealized(price: real, avg: real, posSide: PosSide, closeSize: real,
                           feesOpenPart: real, feesClose: real): (r: Realized)
    ensures r.net == r.gross - feesOpenPart - feesClose
    ensures closeSize > 0.0 ==> (r.gross > 0.0 <==> (if posSide == Long then price > avg else price < avg))
    ensures closeSize >= 0.0 && price == avg ==> r.gross == 0.0
  {
    var pnlDiff := if posSide == Long then price - avg else avg - price;
    var gross := pnlDiff * closeSize;
    Realized(gross, gross - feesOpenPart - feesClose)
  }

  /** The two sides are mirror images: a long gains exactly what a short loses. */
  lemma RealizedSidesOpposite(price: real, avg: real, closeSize: real, feesOpenPart: real, feesClose: real)
    ensures ComputeRealized(price, avg, Long, closeSize, feesOpenPart, feesClose).gross
         == -ComputeRealized(price, avg, Short, closeSize, feesOpenPart, feesClose).gross
  {
  }

  /** Margin is the notional over the leverage, or the full notional without leverage. */
  function MarginRequired(notional: real, leverage: real): (m: real)
    ensures leverage > 0.0 ==> m * leverage == notional
    ensures leverage <= 0.0 ==> m == notional
  {
    if leverage > 0.0 then notional / leverage else notional
  }

  /** Approximate liquidation price: the price at which the loss on the position
      equals its margin minus its fees; 0 in the degenerate cases. */
  function LiquidationPrice(entryPrice: real, size: real, posSide: PosSide, margin: real, fees: real): (r: real)
    ensures size <= 0.0 || entryPrice <= 0.0 || margin - fees <= 0.0 ==> r == 0.0
    ensures size > 0.0 && entryPrice > 0.0 && margin - fees > 0.0 && posSide == Long ==>
              (entryPrice - r) * size == margin - fees && r < entryPrice
    ensures size > 0.0 && entryPrice > 0.0 && margin - fees > 0.0 && posSide == Short ==>
              (r - entryPrice) * size == margin - fees && r > entryPrice
  {
    if size <= 0.0 || entryPrice <= 0.0 then 0.0
    else
      var equity := margin - fees;
      if equity <= 0.0 then 0.0
      else
        var maxLossPerUnit := equity / size;
        assert maxLossPerUnit * size == equity;
        assert maxLossPerUnit > 0.0;
        if posSide == Long then entryPrice - maxLossPerUnit else entryPrice + maxLossPerUnit
  }
}
