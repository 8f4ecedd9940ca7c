/** The rows that the services update in place (app/db/models). */
module Database {
  import opened Common
  import opened Ledger

  class Position {
    const key: Key
    const side: PositionSide
    const leverage: real
    const avgEntryPrice: real
    const stopLossPrice: real
    const takeProfitPrice: real
    const liquidationPrice: Option<real>
    const openedAt: int
    var status: PositionStatus
    var quantity: real
    var currentPrice: real
    var entryNotional: real
    var collateral: real
    var unrealizedPnl: real
    var realizedPnl: real
    var fundingCost: real
    var exitReason: Option<ExitReason>
    var closedAt: Option<int>

    function Row(): (r: PositionRow)
      reads this
      ensures r.key == key && r.side == side && r.status == status && r.quantity == quantity
    {
      PositionRow(key, side, status, quantity, leverage, avgEntryPrice, currentPrice, entryNotional, collateral,
                  unrealizedPnl, realizedPnl, stopLossPrice, takeProfitPrice, liquidationPrice, fundingCost,
                  exitReason, openedAt, closedAt)
    }

    /** A position just opened. */
    constructor (key: Key, side: PositionSide, quantity: real, leverage: real, price: real, entryNotional: real,
                 collateral: real, stopLossPrice: real, takeProfitPrice: real, liquidationPrice: Option<real>, at: int)
      ensures Row() == PositionRow(key, side, Open, quantity, leverage, price, price, entryNotional, collateral, 0.0, 0.0,
                                   stopLossPrice, takeProfitPrice, liquidationPrice, 0.0, None, at, None)
    {
      this.key, this.side, this.leverage, avgEntryPrice := key, side, leverage, price;
      this.stopLossPrice, this.takeProfitPrice, this.liquidationPrice := stopLossPrice, takeProfitPrice, liquidationPrice;
      openedAt := at;
      status, this.quantity, currentPrice := Open, quantity, price;
      this.entryNotional, this.collateral := entryNotional, collateral;
      unrealizedPnl, realizedPnl, fundingCost := 0.0, 0.0, 0.0;
      exitReason, closedAt := None, None;
    }
  }

  class PortfolioState {
    const startingBalance: real
    var cashBalance: real
    var lastEquity: real
    var peakEquity: real
    var realizedPnl: real
    var unrealizedPnl: real
    var marginUsed: real
    var grossExposure: real
    var netExposure: real

    function Row(): Portfolio
      reads this
    {
      Portfolio(startingBalance, cashBalance, lastEquity, peakEquity, realizedPnl, unrealizedPnl, marginUsed,
                grossExposure, netExposure)
    }

    method Overwrite(cashBalance: real, realizedPnl: real, unrealizedPnl: real, marginUsed: real, grossExposure: real,
                     netExposure: real, equity: real)
      modifies this
      ensures Row() == Portfolio(startingBalance, cashBalance, equity, Max(old(peakEquity), equity), realizedPnl,
                                 unrealizedPnl, marginUsed, grossExposure, netExposure)
    {
      this.cashBalance := cashBalance;
      this.realizedPnl := realizedPnl;
      this.unrealizedPnl := unrealizedPnl;
      this.marginUsed := marginUsed;
      this.grossExposure := grossExposure;
      this.netExposure := netExposure;
      lastEquity := equity;
      peakEquity := Max(peakEquity, equity);
    }

    constructor (startingBalance: real)
      ensures Row() == EmptyTables(startingBalance).portfolio
    {
      this.startingBalance, cashBalance, lastEquity, peakEquity :=
        startingBalance, startingBalance, startingBalance, startingBalance;
      realizedPnl, unrealizedPnl, marginUsed, grossExposure, netExposure := 0.0, 0.0, 0.0, 0.0, 0.0;
    }
  }

  function RowsOf(positions: seq<Position>): (rows: seq<PositionRow>)
    reads positions
    ensures |rows| == |positions|
    ensures forall i :: 0 <= i < |positions| ==> rows[i] == positions[i].Row()
  {
    if positions == [] then []
    else RowsOf(positions[..|positions| - 1]) + [positions[|positions| - 1].Row()]
  }

  /** The tables of one database. A row's id is its place in its table. */
  class Store {
    const state: PortfolioState
    var positions: seq<Position>
    var orders: seq<OrderRow>
    var trades: seq<TradeRow>

    /** No position appears twice. */
    ghost predicate Valid()
      reads this
    {
      forall i, j :: 0 <= i < j < |positions| ==> positions[i] != positions[j]
    }

    function Tables(): (t: Tables)
      reads this, state, positions
    {
      Ledger.Tables(RowsOf(positions), orders, trades, state.Row())
    }

    constructor (startingBalance: real)
      ensures Valid() && fresh(state) && positions == [] && Tables() == EmptyTables(startingBalance)
    {
      state := new PortfolioState(startingBalance);
      positions, orders, trades := [], [], [];
    }
  }
}
