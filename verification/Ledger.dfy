/** The rows of the trading tables (app/db/models), the queries over them, and the arithmetic of
    repricing, entry fills, exit fills and funding charges. Row ids are positions in the tables. */
module Ledger {
  import opened Common
  import opened Fees

  datatype PositionStatus = Open | Closed

  datatype TradeAction = Entry | Exit | Funding

  datatype DecisionSource = FromStrategy | FromRisk | FromManual

  datatype ExitReason = Liquidation | StopLoss | TakeProfit | StrategyExit | ManualExit

  /** What identifies a strategy instance in a market. */
  datatype Key = Key(strategy: string, symbol: string, itype: InstrumentType)

  datatype PositionRow = PositionRow(
    key: Key,
    side: PositionSide,
    status: PositionStatus,
    quantity: real,
    leverage: real,
    avgEntryPrice: real,
    currentPrice: real,
    entryNotional: real,
    collateral: real,
    unrealizedPnl: real,
    realizedPnl: real,
    stopLossPrice: real,
    takeProfitPrice: real,
    liquidationPrice: Option<real>,
    fundingCost: real,
    exitReason: Option<ExitReason>,
    openedAt: int,
    closedAt: Option<int>)

  datatype OrderRow = OrderRow(
    clientId: Option<nat>,
    key: Key,
    positionSide: PositionSide,
    source: DecisionSource,
    side: OrderSide,
    orderType: OrderType,
    status: OrderStatus,
    quantity: real,
    filledQuantity: real,
    remainingQuantity: real,
    limitPrice: Option<real>,
    fillPrice: Option<real>,
    feePaid: real,
    leverage: real,
    liquidationPrice: Option<real>,
    createdAt: int)

  datatype TradeRow = TradeRow(
    orderId: nat,
    positionId: nat,
    itype: InstrumentType,
    action: TradeAction,
    price: real,
    quantity: real,
    notional: real,
    feePaid: real,
    fundingCost: real,
    realizedPnl: real,
    cashFlow: real,
    time: int)

  datatype Portfolio = Portfolio(
    startingBalance: real,
    cashBalance: real,
    lastEquity: real,
    peakEquity: real,
    realizedPnl: real,
    unrealizedPnl: real,
    marginUsed: real,
    grossExposure: real,
    netExposure: real)

  datatype Tables = Tables(
    positions: seq<PositionRow>,
    orders: seq<OrderRow>,
    trades: seq<TradeRow>,
    portfolio: Portfolio)

  function EmptyTables(startingBalance: real): Tables {
    Tables([], [], [],
           Portfolio(startingBalance, startingBalance, startingBalance, startingBalance, 0.0, 0.0, 0.0, 0.0, 0.0))
  }

  // ---------- Queries ----------

  /** The open position of a key: the first match (Safety proves that there is never a second). */
  function FindOpen(positions: seq<PositionRow>, key: Key): (r: Option<nat>)
    ensures r.Some? ==>
              r.value < |positions| && positions[r.value].key == key && positions[r.value].status == Open
    ensures r.None? ==> forall i :: 0 <= i < |positions| ==> !(positions[i].key == key && positions[i].status == Open)
  {
    if positions == [] then None
    else
      var before := FindOpen(positions[..|positions| - 1], key);
      if before.Some? then before
      else
        var last := positions[|positions| - 1];
        if last.key == key && last.status == Open then Some(|positions| - 1) else None
  }

  predicate IsClosedOf(p: PositionRow, key: Key) {
    p.key == key && p.status == Closed && p.closedAt.Some?
  }

  /** The closed position of a key with the latest closing time; of several, the last row. */
  function LatestClosed(positions: seq<PositionRow>, key: Key): (r: Option<nat>)
    ensures r.Some? ==> r.value < |positions| && IsClosedOf(positions[r.value], key)
    ensures forall i :: 0 <= i < |positions| && IsClosedOf(positions[i], key) ==>
              && r.Some?
              && positions[i].closedAt.value <= positions[r.value].closedAt.value
              && (positions[i].closedAt.value == positions[r.value].closedAt.value ==> i <= r.value)
  {
    if positions == [] then None
    else
      var n := |positions| - 1;
      var before := LatestClosed(positions[..n], key);
      if IsClosedOf(positions[n], key)
         && (before.None? || positions[before.value].closedAt.value <= positions[n].closedAt.value)
      then Some(n) else before
  }

  /** When the latest order of a key was created. */
  function LatestOrderAt(orders: seq<OrderRow>, key: Key): (r: Option<int>)
    ensures forall o :: o in orders && o.key == key ==> r.Some? && o.createdAt <= r.value
    ensures r.Some? ==> exists o :: o in orders && o.key == key && o.createdAt == r.value
  {
    if orders == [] then None
    else
      var before := LatestOrderAt(orders[..|orders| - 1], key);
      var last := orders[|orders| - 1];
      assert orders == orders[..|orders| - 1] + [last];
      if last.key == key && (before.None? || before.value <= last.createdAt)
      then Some(last.createdAt) else before
  }

  function CountOpen(positions: seq<PositionRow>): nat {
    if positions == [] then 0
    else CountOpen(positions[..|positions| - 1]) + if positions[|positions| - 1].status == Open then 1 else 0
  }

  // ---------- Sums over trades ----------

  function CashFlowOf(t: TradeRow): real { t.cashFlow }

  function RealizedOf(t: TradeRow): real { t.realizedPnl }

  predicate Concerns(t: TradeRow, id: nat, action: TradeAction) {
    t.positionId == id && t.action == action
  }

  function EntryFeeOf(id: nat): TradeRow -> real {
    (t: TradeRow) => if Concerns(t, id, Entry) then t.feePaid else 0.0
  }

  function EntryQuantityOf(id: nat): TradeRow -> real {
    (t: TradeRow) => if Concerns(t, id, Entry) then t.quantity else 0.0
  }

  function ExitQuantityOf(id: nat): TradeRow -> real {
    (t: TradeRow) => if Concerns(t, id, Exit) then t.quantity else 0.0
  }

  function ExitRealizedOf(id: nat): TradeRow -> real {
    (t: TradeRow) => if Concerns(t, id, Exit) then t.realizedPnl else 0.0
  }

  function RealizedSinceOf(start: int): TradeRow -> real {
    (t: TradeRow) => if t.time >= start then t.realizedPnl else 0.0
  }

  function EntryFees(trades: seq<TradeRow>, id: nat): real {
    SumBy(trades, EntryFeeOf(id))
  }

  function EntryQuantity(trades: seq<TradeRow>, id: nat): real {
    SumBy(trades, EntryQuantityOf(id))
  }

  function ExitQuantity(trades: seq<TradeRow>, id: nat): real {
    SumBy(trades, ExitQuantityOf(id))
  }

  // ---------- Repricing the portfolio ----------

  function LastPrice(p: PositionRow, prices: map<string, real>): real {
    if p.key.symbol in prices then prices[p.key.symbol]
    else if p.currentPrice != 0.0 then p.currentPrice
    else p.avgEntryPrice
  }

  /** What a price move since the entry is worth on a quantity. */
  function PnlOn(side: PositionSide, price: real, entryPrice: real, quantity: real): real {
    Direction(side) * (price - entryPrice) * quantity
  }

  function UnrealizedAt(p: PositionRow, price: real): real {
    PnlOn(p.side, price, p.avgEntryPrice, p.quantity)
  }

  function Reprice(p: PositionRow, prices: map<string, real>): PositionRow {
    if p.status == Open then
      var price := LastPrice(p, prices);
      p.(currentPrice := price, unrealizedPnl := UnrealizedAt(p, price))
    else p
  }

  function RepriceAll(positions: seq<PositionRow>, prices: map<string, real>): (r: seq<PositionRow>)
    ensures |r| == |positions|
    ensures forall i :: 0 <= i < |positions| ==> r[i] == Reprice(positions[i], prices)
  {
    seq(|positions|, i requires 0 <= i < |positions| => Reprice(positions[i], prices))
  }

  predicate IsSpotLong(p: PositionRow) {
    p.key.itype == Spot && p.side == Long
  }

  function OpenUnrealized(p: PositionRow): real {
    if p.status == Open then p.unrealizedPnl else 0.0
  }

  function OpenMargin(p: PositionRow): real {
    if p.status == Open && !IsSpotLong(p) then p.collateral else 0.0
  }

  function OpenNotional(p: PositionRow): real {
    if p.status == Open then p.quantity * p.currentPrice else 0.0
  }

  function OpenGross(p: PositionRow): real { Abs(OpenNotional(p)) }

  function OpenNet(p: PositionRow): real { Direction(p.side) * OpenNotional(p) }

  function LongExposure(p: PositionRow): real { if p.side == Short then 0.0 else Abs(OpenNotional(p)) }

  function ShortExposure(p: PositionRow): real { if p.side == Short then Abs(OpenNotional(p)) else 0.0 }

  function EquityContribution(p: PositionRow): real {
    if p.status != Open then 0.0
    else if IsSpotLong(p) then p.quantity * p.currentPrice
    else p.collateral + p.unrealizedPnl
  }

  function CashBalance(t: Tables): real {
    t.portfolio.startingBalance + SumBy(t.trades, CashFlowOf)
  }

  /** The portfolio row that belongs to a set of repriced positions. */
  function Totals(t: Tables): Portfolio {
    var equity := CashBalance(t) + SumBy(t.positions, EquityContribution);
    t.portfolio.(
      cashBalance := CashBalance(t),
      lastEquity := equity,
      peakEquity := Max(t.portfolio.peakEquity, equity),
      realizedPnl := SumBy(t.trades, RealizedOf),
      unrealizedPnl := SumBy(t.positions, OpenUnrealized),
      marginUsed := SumBy(t.positions, OpenMargin),
      grossExposure := SumBy(t.positions, OpenGross),
      netExposure := SumBy(t.positions, OpenNet))
  }

  function Recalculate(t: Tables, prices: map<string, real>): Tables {
    var repriced := t.(positions := RepriceAll(t.positions, prices));
    repriced.(portfolio := Totals(repriced))
  }

  // ---------- Entry fills ----------

  function StopPrice(side: PositionSide, entry: real, pct: real): real {
    if side == Short then entry * (1.0 + pct) else entry * (1.0 - pct)
  }

  function TakeProfitPrice(side: PositionSide, entry: real, pct: real): real {
    if side == Short then entry * (1.0 - pct) else entry * (1.0 + pct)
  }

  function EntryCashFlow(itype: InstrumentType, side: PositionSide, notional: real, fee: real, collateral: real): real {
    if itype == Spot && side == Long then -(notional + fee) else -(collateral + fee)
  }

  /** What an entry fill needs to know. */
  datatype EntryFill = EntryFill(
    key: Key,
    side: PositionSide,
    price: real,
    quantity: real,
    fee: real,
    leverage: real,
    stopLossPct: real,
    takeProfitPct: real,
    liquidationPrice: Option<real>,
    at: int)

  function EntryCollateral(e: EntryFill): real {
    if e.key.itype == Perpetual then Notional(e.price, e.quantity) / Max(e.leverage, 1.0) else 0.0
  }

  function EnteredPosition(e: EntryFill): PositionRow {
    PositionRow(e.key, e.side, Open, e.quantity, e.leverage, e.price, e.price, Notional(e.price, e.quantity),
                EntryCollateral(e), 0.0, 0.0, StopPrice(e.side, e.price, e.stopLossPct),
                TakeProfitPrice(e.side, e.price, e.takeProfitPct), e.liquidationPrice, 0.0, None, e.at, None)
  }

  function EntryTrade(e: EntryFill, orderId: nat, positionId: nat): TradeRow {
    var notional := Notional(e.price, e.quantity);
    TradeRow(orderId, positionId, e.key.itype, Entry, e.price, e.quantity, notional, e.fee, 0.0, 0.0,
             EntryCashFlow(e.key.itype, e.side, notional, e.fee, EntryCollateral(e)), e.at)
  }

  function RecordEntry(t: Tables, e: EntryFill, orderId: nat): Tables {
    t.(positions := t.positions + [EnteredPosition(e)],
       trades := t.trades + [EntryTrade(e, orderId, |t.positions|)])
  }

  // ---------- Exit fills ----------

  /** What an exit fill needs to know. */
  datatype ExitFill = ExitFill(price: real, filled: real, fee: real, reason: ExitReason, at: int)

  const DUST: real := 0.000000000001

  function CloseQuantity(p: PositionRow, x: ExitFill): real {
    Min(x.filled, p.quantity)
  }

  function RemainingQuantity(p: PositionRow, x: ExitFill): real {
    Max(p.quantity - CloseQuantity(p, x), 0.0)
  }

  /** The part of `amount` that belongs to `part` out of `whole`. */
  function ProRata(amount: real, part: real, whole: real): real {
    if whole == 0.0 then 0.0 else amount * (part / whole)
  }

  function GrossPnl(p: PositionRow, x: ExitFill): real {
    PnlOn(p.side, x.price, p.avgEntryPrice, CloseQuantity(p, x))
  }

  function FundingAlloc(p: PositionRow, x: ExitFill): real {
    ProRata(p.fundingCost, CloseQuantity(p, x), p.quantity)
  }

  function CollateralRelease(p: PositionRow, x: ExitFill): real {
    ProRata(p.collateral, CloseQuantity(p, x), p.quantity)
  }

  function ExitCashFlow(p: PositionRow, x: ExitFill): real {
    if IsSpotLong(p) then Notional(x.price, CloseQuantity(p, x)) - x.fee
    else CollateralRelease(p, x) + GrossPnl(p, x) - x.fee - FundingAlloc(p, x)
  }

  function ExitRealized(p: PositionRow, x: ExitFill, entryFees: real, entryQuantity: real): real {
    GrossPnl(p, x) - ProRata(entryFees, CloseQuantity(p, x), entryQuantity) - x.fee - FundingAlloc(p, x)
  }

  function ExitedPosition(p: PositionRow, x: ExitFill, entryFees: real, entryQuantity: real): PositionRow {
    var remaining := RemainingQuantity(p, x);
    var reduced := p.(
      quantity := remaining,
      currentPrice := x.price,
      realizedPnl := p.realizedPnl + ExitRealized(p, x, entryFees, entryQuantity),
      entryNotional := Notional(p.avgEntryPrice, remaining),
      collateral := Max(p.collateral - CollateralRelease(p, x), 0.0),
      fundingCost := Max(p.fundingCost - FundingAlloc(p, x), 0.0));
    if remaining <= DUST then
      reduced.(status := Closed, unrealizedPnl := 0.0, exitReason := Some(x.reason), closedAt := Some(x.at),
               quantity := 0.0)
    else
      reduced.(unrealizedPnl := PnlOn(p.side, x.price, p.avgEntryPrice, remaining))
  }

  function ExitTrade(p: PositionRow, x: ExitFill, entryFees: real, entryQuantity: real,
                     orderId: nat, positionId: nat): TradeRow {
    TradeRow(orderId, positionId, p.key.itype, Exit, x.price, CloseQuantity(p, x), Notional(x.price, CloseQuantity(p, x)), x.fee,
             FundingAlloc(p, x), ExitRealized(p, x, entryFees, entryQuantity), ExitCashFlow(p, x), x.at)
  }

  function RecordExit(t: Tables, id: nat, x: ExitFill, orderId: nat): Tables
    requires id < |t.positions|
  {
    var p, fees, quantity := t.positions[id], EntryFees(t.trades, id), EntryQuantity(t.trades, id);
    t.(positions := t.positions[id := ExitedPosition(p, x, fees, quantity)],
       trades := t.trades + [ExitTrade(p, x, fees, quantity, orderId, id)])
  }

  // ---------- Funding ----------

  function FundingTrade(p: PositionRow, cost: real, orderId: nat, id: nat, at: int): TradeRow {
    TradeRow(orderId, id, p.key.itype, Funding, p.currentPrice, p.quantity, Notional(p.currentPrice, p.quantity), 0.0,
             cost, -cost, -cost, at)
  }

  /** The order of the latest trade of a position, if it has a trade. */
  function LatestTradeOrder(trades: seq<TradeRow>, id: nat): Option<nat> {
    if trades == [] then None
    else if trades[|trades| - 1].positionId == id then Some(trades[|trades| - 1].orderId)
    else LatestTradeOrder(trades[..|trades| - 1], id)
  }

  /** A position without a trade history is refused. */
  function RecordFunding(t: Tables, id: nat, cost: real, at: int): Tables
    requires id < |t.positions|
  {
    var orderId := LatestTradeOrder(t.trades, id);
    if orderId.None? then t
    else
      var p := t.positions[id];
      t.(positions := t.positions[id := p.(fundingCost := p.fundingCost + cost)],
         trades := t.trades + [FundingTrade(p, cost, orderId.value, id, at)])
  }
}
