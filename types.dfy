/** The records and enumerations shared by the engine, the simulation and the
    strategies (src/types.ts). */
module Types {
  import opened Wrappers

  /** Position side of an order or position (MixHoldSideEnum). */
  datatype PosSide = Long | Short

  /** Execution side of an order (OrderSideEnum). */
  datatype OrderSide = BuySide | SellSide

  /** An executed order. `symbol == ""` stands for a missing symbol, and `None`
      in `side` / `posSide` for a missing side; `id == None` stands for an id that
      is not a string. The fee is optional and counts as 0 when absent. */
  datatype Order = Order(
    id: Option<string>,
    symbol: string,
    side: Option<OrderSide>,
    posSide: Option<PosSide>,
    size: real,
    priceAvg: real,
    fee: Option<real>,
    createdAt: int)

  /** Snapshot of one open position. */
  datatype Position = Position(
    symbol: string,
    posSide: PosSide,
    openSide: OrderSide,
    size: real,
    entryPrice: real,
    currentPrice: real,
    pnlUnrealized: real,
    totalFee: real,
    notionalValue: real,
    marginRequired: real,
    liquidationPrice: real,
    lastOrderId: Option<string>,
    openedAt: Option<int>)

  /** Per-symbol rollup of open positions. */
  datatype SymbolTotals = SymbolTotals(notional: real, pnlUnrealized: real, size: real)

  datatype PortfolioStats = PortfolioStats(
    positions: seq<Position>,
    countPositions: nat,
    longCount: nat,
    shortCount: nat,
    totalUnrealizedPnL: real,
    totalFeesOpen: real,
    totalNotional: real,
    totalMargin: real,
    bySymbol: map<string, SymbolTotals>)

  datatype RealizedPnLStats = RealizedPnLStats(
    totalRealizedPnL: real,
    totalFeesClosed: real,
    tradeCount: nat,
    winCount: nat,
    lossCount: nat,
    winRate: real,
    avgProfit: real,
    best: real,
    worst: real,
    avgHoldMs: real)

  /** One completed round: every partial close of the round merged. */
  datatype ClosedTrade = ClosedTrade(
    symbol: string,
    posSide: PosSide,
    size: real,
    realizedPnl: real,
    grossPnl: real,
    feesOpenUsed: real,
    feesClose: real,
    openedAt: int,
    closedAt: int,
    lastCloseOrderId: Option<string>)

  datatype EquityPoint = EquityPoint(timestamp: int, equity: real, drawdown: real)

  /** A per-bar signal (indicatorts Action: SELL = -1, HOLD = 0, BUY = 1). */
  datatype Action = Sell | Hold | Buy

  function ActionValue(a: Action): (v: int)
    ensures -1 <= v <= 1
    ensures v == 1 <==> a == Buy
  {
    match a
    case Sell => -1
    case Hold => 0
    case Buy => 1
  }

  /** Long and short signal columns, with the length the producer declares. */
  datatype Strategy = Strategy(longStrategy: seq<Action>, shortStrategy: seq<Action>, length: int)

  /** The value at index `i` of a signal column, `None` past its end (`undefined`). */
  function Cell(col: seq<Action>, i: int): (c: Option<Action>)
    ensures c.Some? <==> 0 <= i < |col|
    ensures c.Some? ==> c.value == col[i]
  {
    if 0 <= i < |col| then Some(col[i]) else None
  }

  function Column(s: Strategy, side: PosSide): seq<Action> {
    if side == Long then s.longStrategy else s.shortStrategy
  }

  /** Swaps BUY and SELL: the short column of a symmetric strategy mirrors its long column. */
  function Mirror(a: Action): (m: Action)
    ensures (m == Buy <==> a == Sell) && (m == Sell <==> a == Buy) && (m == Hold <==> a == Hold)
  {
    match a
    case Buy => Sell
    case Sell => Buy
    case Hold => Hold
  }
}
