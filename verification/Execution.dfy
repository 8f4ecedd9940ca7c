/** Entries, closes, cancellations and strategy evaluations, as functions of the tables and the
    exchange (app/services/execution_service.py). */
module Execution {
  import opened Common
  import opened Config
  import opened Strategy
  import opened Ledger
  import opened PaperExchange
  import opened Instruments
  import opened Risk
  import OrderBook
  import Precision

  /** The database and the exchange of one process. */
  datatype World = World(tables: Tables, exchange: ExchangeState)

  /** What the market data services answer during one call. */
  datatype Env = Env(
    instrument: Option<Instrument>,
    book: Option<OrderBook.Book>,
    spreadBps: real,
    fundingRate: Option<real>)

  datatype TradingError =
    | PositionAlreadyOpen
    | QuantityIsZero
    | CannotNormalize(cause: NormalizeError)
    | RiskRejected(reason: RiskReason)
    | PositionNotOpen
    | UnknownPosition
    | UnknownOrder
    | OrderNotCancelable
    | AdapterCouldNotCancel

  /** The errors that the source raises as RiskCheckFailed. */
  predicate IsRiskCheck(e: TradingError) {
    e.QuantityIsZero? || e.RiskRejected?
  }

  function FeesOf(settings: Settings): FeeSchedule {
    FeeSchedule(settings.defaultFeeBps, settings.defaultSlippageBps)
  }

  // ---------- Entries ----------

  /** The arguments of submit_entry_order. `strategy` holds the parameters of a registered strategy. */
  datatype EntryArgs = EntryArgs(
    strategy: Option<StrategyParams>,
    key: Key,
    referencePrice: real,
    orderType: OrderType,
    limitPrice: Option<real>,
    leverage: Option<real>,
    side: PositionSide,
    source: DecisionSource,
    quantity: Option<real>,
    stopLossPct: Option<real>,
    takeProfitPct: Option<real>,
    spreadBps: Option<real>,
    slippageBps: Option<real>,
    model: Option<ExecutionModel>,
    allowCandleFallback: bool)

  function Given(value: Option<real>, fallback: real): real {
    if value.Some? then value.value else fallback
  }

  function StopLossPct(a: EntryArgs): real {
    Given(a.stopLossPct, if a.strategy.Some? then a.strategy.value.stopLossPct else 0.015)
  }

  function TakeProfitPct(a: EntryArgs): real {
    Given(a.takeProfitPct, if a.strategy.Some? then a.strategy.value.takeProfitPct else 0.03)
  }

  function SelectedLeverage(settings: Settings, a: EntryArgs): real {
    if a.key.itype == Spot then 1.0 else OrElse(a.leverage, settings.defaultLeverage)
  }

  function SelectedModel(settings: Settings, model: Option<ExecutionModel>): ExecutionModel {
    if model.Some? then model.value else settings.defaultExecutionModel
  }

  function RequestedQuantity(settings: Settings, a: EntryArgs, equity: real): real {
    var leverage := SelectedLeverage(settings, a);
    if a.quantity.Some? then a.quantity.value
    else if a.strategy.Some? then
      PositionSize(a.strategy.value, equity, a.referencePrice, settings.maxRiskPerTrade,
                   settings.maxPositionNotionalPct, leverage)
    else
      Precision.Round8(Max(equity * settings.maxPositionNotionalPct * Max(leverage, 1.0) / Max(a.referencePrice, 1.0), 0.0))
  }

  function EntryPriceOf(a: EntryArgs, order: NormalizedOrder): real {
    OrElse(order.limitPrice, a.referencePrice)
  }

  function ProposalOf(settings: Settings, a: EntryArgs, env: Env, order: NormalizedOrder): Proposal {
    var price := EntryPriceOf(a, order);
    Proposal(a.key.symbol, order.quantity, price, StopLossPct(a), a.key.itype, order.leverage, a.side,
             Given(a.spreadBps, env.spreadBps), Given(a.slippageBps, settings.defaultSlippageBps),
             if a.key.itype == Perpetual then env.fundingRate else None,
             LiquidationOf(settings, a, env, order, price))
  }

  function LiquidationOf(settings: Settings, a: EntryArgs, env: Env, order: NormalizedOrder, price: real): Option<real> {
    if a.key.itype == Perpetual && env.instrument.Some? then
      Some(EstimateLiquidationPrice(settings, price, a.side, order.leverage, env.instrument.value.maintenanceMarginRate))
    else None
  }

  function EntryRequest(settings: Settings, a: EntryArgs, env: Env, order: NormalizedOrder): OrderRequest {
    OrderRequest(a.key.symbol, EntrySide(a.side), a.orderType, order.quantity, a.referencePrice, order.limitPrice,
                 env.book, SelectedModel(settings, a.model), a.allowCandleFallback)
  }

  function RejectedOrder(a: EntryArgs, at: int): OrderRow {
    OrderRow(None, a.key, a.side, a.source, EntrySide(a.side), Market, Rejected, 0.0, 0.0, 0.0, None, None, 0.0, 1.0,
             None, at)
  }

  function PersistedOrder(key: Key, positionSide: PositionSide, source: DecisionSource, request: OrderRequest,
                          report: Report, leverage: real, at: int): OrderRow
  {
    OrderRow(Some(report.clientId), key, positionSide, source, request.side, request.orderType, report.status,
             request.quantity, report.filledQuantity, report.remainingQuantity, request.limitPrice, report.fillPrice,
             report.feePaid, leverage, None, at)
  }

  function EntryFillOf(settings: Settings, a: EntryArgs, env: Env, order: NormalizedOrder, report: Report, at: int): EntryFill
    requires report.fillPrice.Some?
  {
    EntryFill(a.key, a.side, report.fillPrice.value, report.filledQuantity, report.feePaid, order.leverage,
              StopLossPct(a), TakeProfitPct(a),
              LiquidationOf(settings, a, env, order, report.fillPrice.value), at)
  }

  predicate IsFill(report: Report) {
    report.filledQuantity > 0.0 && report.fillPrice.Some?
  }

  /** What the report of the exchange does to the tables. */
  function BookEntry(settings: Settings, t: Tables, a: EntryArgs, env: Env, order: NormalizedOrder, report: Report, at: int): Tables {
    var orderId := |t.orders|;
    var row := PersistedOrder(a.key, a.side, a.source, EntryRequest(settings, a, env, order), report, order.leverage, at);
    var booked :=
      if IsFill(report) then
        var fill := EntryFillOf(settings, a, env, order, report, at);
        RecordEntry(t.(orders := t.orders + [row.(liquidationPrice := fill.liquidationPrice)]), fill, orderId)
      else t.(orders := t.orders + [row]);
    Recalculate(booked, map[a.key.symbol := OrElse(report.fillPrice, a.referencePrice)])
  }

  /** The order that an entry would place: the tables marked at the reference price, and the
      normalised order or the reason why there is none. */
  function PrepareEntry(settings: Settings, t: Tables, a: EntryArgs, env: Env): (Tables, Result<NormalizedOrder, TradingError>) {
    if FindOpen(t.positions, a.key).Some? then (t, Failure(PositionAlreadyOpen))
    else
      var marked := Recalculate(t, map[a.key.symbol := a.referencePrice]);
      var quantity := RequestedQuantity(settings, a, marked.portfolio.lastEquity);
      if quantity <= 0.0 then (marked, Failure(QuantityIsZero))
      else
        match NormalizeOrder(settings, env.instrument, quantity, a.limitPrice, a.referencePrice, SelectedLeverage(settings, a))
        case Failure(e) => (marked, Failure(CannotNormalize(e)))
        case Success(order) => (marked, Success(order))
  }

  function SubmitEntry(settings: Settings, w: World, a: EntryArgs, env: Env, at: int): (World, Result<nat, TradingError>) {
    var (marked, prepared) := PrepareEntry(settings, w.tables, a, env);
    match prepared
    case Failure(e) => (w.(tables := marked), Failure(e))
    case Success(order) =>
      var (checked, decision) := EvaluateEntry(settings, marked, ProposalOf(settings, a, env, order), at);
      match decision
      case Blocked(reason) =>
        (w.(tables := checked.(orders := checked.orders + [RejectedOrder(a, at)])), Failure(RiskRejected(reason)))
      case Approved =>
        var (exchange, report) := Place(FeesOf(settings), w.exchange, EntryRequest(settings, a, env, order));
        (World(BookEntry(settings, checked, a, env, order, report, at), exchange), Success(|checked.orders|))
  }

  // ---------- Closes ----------

  datatype CloseArgs = CloseArgs(
    referencePrice: real,
    reason: ExitReason,
    orderType: OrderType,
    limitPrice: Option<real>,
    model: Option<ExecutionModel>,
    allowCandleFallback: bool)

  function MarketClose(referencePrice: real, reason: ExitReason): CloseArgs {
    CloseArgs(referencePrice, reason, Market, None, None, true)
  }

  function CloseRequest(settings: Settings, p: PositionRow, c: CloseArgs, env: Env, order: NormalizedOrder): OrderRequest {
    OrderRequest(p.key.symbol, ExitSide(p.side), c.orderType, order.quantity, c.referencePrice, order.limitPrice,
                 env.book, SelectedModel(settings, c.model), c.allowCandleFallback)
  }

  function CloseSource(reason: ExitReason): DecisionSource {
    if reason == ExitReason.StopLoss || reason == ExitReason.Liquidation then FromRisk else FromStrategy
  }

  function ExitFillOf(c: CloseArgs, report: Report, at: int): ExitFill
    requires report.fillPrice.Some?
  {
    ExitFill(report.fillPrice.value, report.filledQuantity, report.feePaid, c.reason, at)
  }

  function BookClose(settings: Settings, t: Tables, id: nat, c: CloseArgs, env: Env, order: NormalizedOrder,
                     report: Report, at: int): Tables
    requires id < |t.positions|
  {
    var p := t.positions[id];
    var row := PersistedOrder(p.key, p.side, CloseSource(c.reason), CloseRequest(settings, p, c, env, order), report, order.leverage, at);
    var ordered := t.(orders := t.orders + [row]);
    if IsFill(report) then
      Recalculate(RecordExit(ordered, id, ExitFillOf(c, report, at), |t.orders|),
                  map[p.key.symbol := report.fillPrice.value])
    else ordered
  }

  function ClosePosition(settings: Settings, w: World, id: nat, c: CloseArgs, env: Env, at: int): (World, Result<nat, TradingError>)
    requires id < |w.tables.positions|
  {
    var p := w.tables.positions[id];
    if p.status != Open then (w, Failure(PositionNotOpen))
    else
      match NormalizeOrder(settings, env.instrument, p.quantity, c.limitPrice, c.referencePrice, p.leverage)
      case Failure(e) => (w, Failure(CannotNormalize(e)))
      case Success(order) =>
        var (exchange, report) := Place(FeesOf(settings), w.exchange, CloseRequest(settings, p, c, env, order));
        (World(BookClose(settings, w.tables, id, c, env, order, report, at), exchange), Success(|w.tables.orders|))
  }

  function ManualReference(p: PositionRow, referencePrice: Option<real>): real {
    OrElse(referencePrice, if p.currentPrice != 0.0 then p.currentPrice else p.avgEntryPrice)
  }

  function ClosePositionById(settings: Settings, w: World, id: nat, referencePrice: Option<real>, env: Env, at: int)
    : (World, Result<nat, TradingError>)
  {
    if id >= |w.tables.positions| then (w, Failure(UnknownPosition))
    else
      ClosePosition(settings, w, id,
                    MarketClose(ManualReference(w.tables.positions[id], referencePrice), ManualExit), env, at)
  }

  // ---------- Cancellation ----------

  function CancelOrder(w: World, id: nat): (World, Result<nat, TradingError>) {
    if id >= |w.tables.orders| then (w, Failure(UnknownOrder))
    else
      var order := w.tables.orders[id];
      if order.status != New && order.status != PartiallyFilled then (w, Failure(OrderNotCancelable))
      else if order.clientId.None? then (w, Failure(AdapterCouldNotCancel))
      else
        var (exchange, canceled) := Cancel(w.exchange, order.clientId.value);
        if !canceled then (w.(exchange := exchange), Failure(AdapterCouldNotCancel))
        else
          (World(w.tables.(orders := w.tables.orders[id := order.(status := Canceled)]), exchange), Success(id))
  }

  // ---------- Strategy evaluation ----------

  /** The arguments of evaluate_strategy and preview_strategy_candidate, with the signal frame. */
  datatype Call = Call(
    strategy: string,
    params: StrategyParams,
    symbol: string,
    timeframe: Timeframe,
    itype: InstrumentType,
    frame: seq<SignalRow>,
    env: Env,
    model: Option<ExecutionModel>,
    now: int)

  function InstanceName(strategy: string, timeframe: Timeframe): string {
    strategy + "@" + timeframe.Name()
  }

  function KeyOf(call: Call): Key {
    Key(InstanceName(call.strategy, call.timeframe), call.symbol, call.itype)
  }

  /** The row to act on: the newest one whose bar has closed, among the last two. */
  function SelectedSignalRow(settings: Settings, call: Call): Option<SignalRow>
    requires call.frame != []
  {
    var n, length := |call.frame|, call.timeframe.Length();
    if !settings.evaluateOnBarCloseOnly then Some(call.frame[n - 1])
    else if call.frame[n - 1].timestamp + length <= call.now then Some(call.frame[n - 1])
    else if n < 2 then None
    else if call.frame[n - 2].timestamp + length > call.now then None
    else Some(call.frame[n - 2])
  }

  predicate BarAlreadyProcessed(orders: seq<OrderRow>, key: Key, bar: int) {
    var latest := LatestOrderAt(orders, key);
    latest.Some? && latest.value >= bar
  }

  function CooldownLength(settings: Settings, timeframe: Timeframe): int {
    (if settings.strategyExitCooldownMinutes >= timeframe.Minutes()
     then settings.strategyExitCooldownMinutes else timeframe.Minutes()) * MINUTE
  }

  predicate CoolingDown(settings: Settings, positions: seq<PositionRow>, call: Call) {
    var latest := LatestClosed(positions, KeyOf(call));
    && latest.Some?
    && positions[latest.value].exitReason != Some(ManualExit)
    && positions[latest.value].closedAt.value + CooldownLength(settings, call.timeframe) > call.now
  }

  /** The exit that the selected row triggers for an open position, with its raw price. */
  function TriggeredExit(p: PositionRow, row: SignalRow): Option<(real, ExitReason)> {
    var opposite := row.entry && DesiredPositionSide(row) != p.side;
    var liquidation := OrElse(p.liquidationPrice, 0.0);
    if liquidation != 0.0 && p.side == Long && row.low <= liquidation then Some((liquidation, ExitReason.Liquidation))
    else if liquidation != 0.0 && p.side == Short && row.high >= liquidation then Some((liquidation, ExitReason.Liquidation))
    else if p.stopLossPrice != 0.0 && p.side == Long && row.low <= p.stopLossPrice then
      Some((p.stopLossPrice, ExitReason.StopLoss))
    else if p.stopLossPrice != 0.0 && p.side == Short && row.high >= p.stopLossPrice then
      Some((p.stopLossPrice, ExitReason.StopLoss))
    else if p.takeProfitPrice != 0.0 && p.side == Long && row.high >= p.takeProfitPrice then
      Some((p.takeProfitPrice, ExitReason.TakeProfit))
    else if p.takeProfitPrice != 0.0 && p.side == Short && row.low <= p.takeProfitPrice then
      Some((p.takeProfitPrice, ExitReason.TakeProfit))
    else if ShouldExit(row, true, p.side) || opposite then Some((row.close, ExitReason.StrategyExit))
    else None
  }

  function StrategyEntry(settings: Settings, call: Call, row: SignalRow): EntryArgs {
    EntryArgs(Some(call.params), KeyOf(call), row.close, Market, None,
              Some(if call.itype == Perpetual then settings.defaultLeverage else 1.0),
              DesiredPositionSide(row), FromStrategy, None,
              Some(call.params.stopLossPct), Some(call.params.takeProfitPct), None, None,
              Some(SelectedModel(settings, call.model)), true)
  }

  datatype FlatReason = AwaitingBarClose | BarProcessed | Cooldown | NoEntrySignal | SpotShortDisabled

  datatype Outcome =
    | NoData
    | Hold
    | Flat(why: FlatReason)
    | Exited(reason: ExitReason)
    | Entered(orderId: nat, side: PositionSide)
    | Raised(error: TradingError)

  function MarkAtLatest(w: World, call: Call): World
    requires call.frame != []
  {
    w.(tables := Recalculate(w.tables, map[call.symbol := call.frame[|call.frame| - 1].close]))
  }

  function Manage(settings: Settings, w: World, call: Call, id: nat, row: SignalRow, at: int): (World, Outcome)
    requires id < |w.tables.positions|
  {
    match TriggeredExit(w.tables.positions[id], row)
    case None => (w, Hold)
    case Some((price, reason)) =>
      var (closed, result) := ClosePosition(settings, w, id, MarketClose(price, reason), call.env, at);
      (closed, if result.Failure? then Raised(result.error) else Exited(reason))
  }

  function Enter(settings: Settings, w: World, call: Call, row: SignalRow, at: int): (World, Outcome) {
    if CoolingDown(settings, w.tables.positions, call) then (w, Flat(Cooldown))
    else if !ShouldEnter(row, false) then (w, Flat(NoEntrySignal))
    else if call.itype == Spot && DesiredPositionSide(row) == Short then (w, Flat(SpotShortDisabled))
    else
      var (entered, result) := SubmitEntry(settings, w, StrategyEntry(settings, call, row), call.env, at);
      (entered, if result.Failure? then Raised(result.error) else Entered(result.value, DesiredPositionSide(row)))
  }

  /** One evaluation at `call.now`; rows that it writes carry the time `at`. */
  function Evaluate(settings: Settings, w: World, call: Call, at: int): (World, Outcome) {
    if call.frame == [] then (w, NoData)
    else
      var selected := SelectedSignalRow(settings, call);
      var open := FindOpen(w.tables.positions, KeyOf(call));
      if selected.None? then
        (MarkAtLatest(w, call), if open.Some? then Hold else Flat(AwaitingBarClose))
      else if BarAlreadyProcessed(w.tables.orders, KeyOf(call), selected.value.timestamp) then
        (MarkAtLatest(w, call), if open.Some? then Hold else Flat(BarProcessed))
      else if open.Some? then
        Manage(settings, MarkAtLatest(w, call), call, open.value, selected.value, at)
      else Enter(settings, w, call, selected.value, at)
  }

  // ---------- Preview ----------

  datatype Preview =
    | PreviewNoData
    | PreviewFlat(cause: FlatReason)
    | PreviewOccupied(side: PositionSide, confidence: real)
    | PreviewEntry(side: PositionSide, confidence: real)

  function PreviewCandidate(settings: Settings, t: Tables, call: Call): Preview {
    if call.frame == [] then PreviewNoData
    else
      var selected := SelectedSignalRow(settings, call);
      if selected.None? then PreviewFlat(AwaitingBarClose)
      else if BarAlreadyProcessed(t.orders, KeyOf(call), selected.value.timestamp) then PreviewFlat(BarProcessed)
      else
        var row, open := selected.value, FindOpen(t.positions, KeyOf(call));
        if open.Some? then PreviewOccupied(t.positions[open.value].side, row.confidence)
        else if CoolingDown(settings, t.positions, call) then PreviewFlat(Cooldown)
        else if !ShouldEnter(row, false) then PreviewFlat(NoEntrySignal)
        else if call.itype == Spot && DesiredPositionSide(row) == Short then PreviewFlat(SpotShortDisabled)
        else PreviewEntry(DesiredPositionSide(row), row.confidence)
  }
}
