/** The execution service over the database and the exchange (app/services/execution_service.py). */
module ExecutionService {
  import opened Common
  import opened Config
  import opened Fees
  import opened Strategy
  import opened Ledger
  import opened Database
  import opened PaperExchange
  import opened Instruments
  import opened Risk
  import opened Execution
  import PortfolioService
  import RiskService

  class Service {
    const db: Store
    const settings: Settings
    const exchange: Exchange
    const portfolio: PortfolioService.Service
    const risk: RiskService.Service

    constructor (db: Store, settings: Settings)
      ensures Valid() && this.db == db && this.settings == settings
      ensures fresh(exchange) && exchange.State() == ExchangeState(map[], 0)
    {
      this.db, this.settings := db, settings;
      exchange := new Exchange(FeesOf(settings));
      portfolio := new PortfolioService.Service(db);
      risk := new RiskService.Service(db, settings);
    }

    ghost predicate Valid() {
      && portfolio.db == db
      && risk.db == db && risk.settings == settings && risk.Valid()
      && exchange.fees == FeesOf(settings)
    }

    ghost function State(): World
      reads db, db.state, db.positions, exchange
    {
      World(db.Tables(), exchange.State())
    }

    // ---------- Entries ----------

    method PersistOrder(row: OrderRow) returns (id: nat)
      requires db.Valid()
      modifies db`orders
      ensures id == |old(db.orders)| && db.orders == old(db.orders) + [row]
    {
      id := |db.orders|;
      db.orders := db.orders + [row];
    }

    /** Opens the position of a filled entry order, and books its trade. */
    method RecordEntryFill(a: EntryArgs, env: Env, order: NormalizedOrder, report: Report, orderId: nat, at: int)
      requires Valid() && db.Valid() && report.fillPrice.Some? && orderId < |db.orders|
      modifies db
      ensures db.Valid() && forall i :: 0 <= i < |db.positions| ==> db.positions[i] in old(db.positions) || fresh(db.positions[i])
      ensures var fill, was := EntryFillOf(settings, a, env, order, report, at), old(db.Tables());
              db.Tables() ==
              RecordEntry(was.(orders := was.orders[orderId := was.orders[orderId].(liquidationPrice := fill.liquidationPrice)]),
                          fill, orderId)
    {
      hide RowsOf, Notional, StopPrice, TakeProfitPrice, StopLossPct, TakeProfitPct, LiquidationOf;
      var price, quantity, itype := report.fillPrice.value, report.filledQuantity, a.key.itype;
      var entryNotional := Notional(price, quantity);
      var collateral := if itype == Perpetual then entryNotional / Max(order.leverage, 1.0) else 0.0;
      var liquidationPrice := LiquidationOf(settings, a, env, order, price);
      var positionId := |db.positions|;
      var position := new Position(a.key, a.side, quantity, order.leverage, price, entryNotional, collateral,
                                   StopPrice(a.side, price, StopLossPct(a)), TakeProfitPrice(a.side, price, TakeProfitPct(a)),
                                   liquidationPrice, at);
      db.positions := db.positions + [position];
      db.orders := db.orders[orderId := db.orders[orderId].(liquidationPrice := liquidationPrice)];
      db.trades := db.trades + [
        TradeRow(orderId, positionId, itype, Entry, price, quantity, entryNotional, report.feePaid, 0.0, 0.0,
                 EntryCashFlow(itype, a.side, entryNotional, report.feePaid, collateral), at)];
      assert RowsOf(db.positions) == old(RowsOf(db.positions)) + [position.Row()];
    }

    /** Persists, fills and marks what the exchange reported about an entry. */
    method BookReport(a: EntryArgs, env: Env, order: NormalizedOrder, report: Report, at: int) returns (orderId: nat)
      requires Valid() && db.Valid()
      modifies db, db.state, db.positions
      ensures db.Valid() && forall i :: 0 <= i < |db.positions| ==> db.positions[i] in old(db.positions) || fresh(db.positions[i])
      ensures orderId == |old(db.orders)|
      ensures db.Tables() == BookEntry(settings, old(db.Tables()), a, env, order, report, at)
    {
      hide RowsOf, EntryFillOf, RecordEntry, Recalculate, PersistedOrder, OrElse;
      var row := PersistedOrder(a.key, a.side, a.source, EntryRequest(settings, a, env, order), report, order.leverage, at);
      orderId := PersistOrder(row);
      if IsFill(report) {
        RecordEntryFill(a, env, order, report, orderId, at);
        ghost var filled := row.(liquidationPrice := EntryFillOf(settings, a, env, order, report, at).liquidationPrice);
        assert (old(db.orders) + [row])[orderId := filled] == old(db.orders) + [filled];
      }
      portfolio.RecalculateState(map[a.key.symbol := OrElse(report.fillPrice, a.referencePrice)]);
    }

    /** Marks the tables at the reference price, then sizes and normalises the order. */
    method PrepareOrder(a: EntryArgs, env: Env) returns (prepared: Result<NormalizedOrder, TradingError>)
      requires Valid() && db.Valid()
      modifies db.state, db.positions
      ensures (db.Tables(), prepared) == PrepareEntry(settings, old(db.Tables()), a, env)
    {
      hide RowsOf, Recalculate, RequestedQuantity, NormalizeOrder;
      var existing := portfolio.GetPosition(a.key);
      if existing.Some? { return Failure(PositionAlreadyOpen); }
      portfolio.RecalculateState(map[a.key.symbol := a.referencePrice]);
      var quantity := RequestedQuantity(settings, a, db.state.lastEquity);
      if quantity <= 0.0 { return Failure(QuantityIsZero); }
      var normalized := NormalizeOrder(settings, env.instrument, quantity, a.limitPrice, a.referencePrice, SelectedLeverage(settings, a));
      match normalized
      case Failure(e) => prepared := Failure(CannotNormalize(e));
      case Success(order) => prepared := Success(order);
    }

    /** Places an approved entry and books what the exchange reports. */
    method PlaceEntry(a: EntryArgs, env: Env, order: NormalizedOrder, at: int) returns (orderId: nat)
      requires Valid() && db.Valid()
      modifies db, db.state, db.positions, exchange
      ensures db.Valid() && forall i :: 0 <= i < |db.positions| ==> db.positions[i] in old(db.positions) || fresh(db.positions[i])
      ensures orderId == |old(db.orders)|
      ensures var (after, report) := Place(FeesOf(settings), old(exchange.State()), EntryRequest(settings, a, env, order));
              State() == World(BookEntry(settings, old(db.Tables()), a, env, order, report, at), after)
    {
      hide RowsOf, Place, BookEntry, EntryRequest, FeesOf;
      var report := exchange.PlaceOrder(EntryRequest(settings, a, env, order));
      orderId := BookReport(a, env, order, report, at);
    }

    method SubmitEntryOrder(a: EntryArgs, env: Env, at: int) returns (result: Result<nat, TradingError>)
      requires Valid() && db.Valid()
      modifies db, db.state, db.positions, exchange
      ensures db.Valid() && forall i :: 0 <= i < |db.positions| ==> db.positions[i] in old(db.positions) || fresh(db.positions[i])
      ensures (State(), result) == SubmitEntry(settings, old(State()), a, env, at)
    {
      hide RowsOf, PrepareEntry, Recalculate, Place, BookEntry, ProposalOf, EntryRequest, Decide, RejectedOrder, FeesOf;
      var prepared := PrepareOrder(a, env);
      if prepared.Failure? { return Failure(prepared.error); }
      var order := prepared.value;
      var decision := risk.EvaluateEntry(ProposalOf(settings, a, env, order), at);
      if decision.Blocked? {
        var _ := PersistOrder(RejectedOrder(a, at));
        return Failure(RiskRejected(decision.reason));
      }
      var orderId := PlaceEntry(a, env, order, at);
      result := Success(orderId);
    }

    // ---------- Closes ----------

    /** Reduces or closes a position by what an exit order filled, and accounts for it in a trade. */
    method ReducePosition(position: Position, x: ExitFill, entryFees: real, entryQuantity: real, orderId: nat, id: nat)
      returns (trade: TradeRow)
      modifies position
      ensures position.Row() == ExitedPosition(old(position.Row()), x, entryFees, entryQuantity)
      ensures trade == ExitTrade(old(position.Row()), x, entryFees, entryQuantity, orderId, id)
    {
      hide Notional, PnlOn, ProRata, Max, Min;
      ghost var was := position.Row();
      var originalQuantity := position.quantity;
      var closeQuantity := Min(x.filled, originalQuantity);
      var remainingQuantity := Max(originalQuantity - closeQuantity, 0.0);
      var grossPnl := PnlOn(position.side, x.price, position.avgEntryPrice, closeQuantity);
      var entryFeeAlloc := ProRata(entryFees, closeQuantity, entryQuantity);
      var fundingAlloc := ProRata(position.fundingCost, closeQuantity, originalQuantity);
      var collateralRelease := ProRata(position.collateral, closeQuantity, originalQuantity);
      var realizedPnl := grossPnl - entryFeeAlloc - x.fee - fundingAlloc;
      var exitNotional := Notional(x.price, closeQuantity);
      assert closeQuantity == CloseQuantity(was, x) && remainingQuantity == RemainingQuantity(was, x);
      assert grossPnl == GrossPnl(was, x) && realizedPnl == ExitRealized(was, x, entryFees, entryQuantity);
      assert fundingAlloc == FundingAlloc(was, x) && collateralRelease == CollateralRelease(was, x);
      hide CloseQuantity, RemainingQuantity, GrossPnl, ExitRealized, FundingAlloc, CollateralRelease;

      position.quantity := remainingQuantity;
      position.currentPrice := x.price;
      position.realizedPnl := position.realizedPnl + realizedPnl;
      position.entryNotional := Notional(position.avgEntryPrice, remainingQuantity);
      position.collateral := Max(position.collateral - collateralRelease, 0.0);
      position.fundingCost := Max(position.fundingCost - fundingAlloc, 0.0);
      if remainingQuantity <= DUST {
        position.status := Closed;
        position.unrealizedPnl := 0.0;
        position.exitReason := Some(x.reason);
        position.closedAt := Some(x.at);
        position.quantity := 0.0;
        assert position.Row() == ExitedPosition(was, x, entryFees, entryQuantity);
      } else {
        position.unrealizedPnl := PnlOn(position.side, x.price, position.avgEntryPrice, remainingQuantity);
        assert position.Row() == ExitedPosition(was, x, entryFees, entryQuantity);
      }
      hide ExitedPosition;
      var cashFlow :=
        if position.key.itype == Spot && position.side == Long then exitNotional - x.fee
        else collateralRelease + grossPnl - x.fee - fundingAlloc;
      trade := TradeRow(orderId, id, position.key.itype, Exit, x.price, closeQuantity, exitNotional, x.fee, fundingAlloc,
                        realizedPnl, cashFlow, x.at);
    }

    method RecordExitFill(id: nat, x: ExitFill, orderId: nat)
      requires Valid() && db.Valid() && id < |db.positions|
      modifies db`trades, db.positions
      ensures db.Tables() == RecordExit(old(db.Tables()), id, x, orderId)
    {
      hide RowsOf, EntryFees, EntryQuantity, ExitedPosition, ExitTrade;
      var position := db.positions[id];
      var trade := ReducePosition(position, x, EntryFees(db.trades, id), EntryQuantity(db.trades, id), orderId, id);
      db.trades := db.trades + [trade];
      assert RowsOf(db.positions) == old(RowsOf(db.positions))[id := position.Row()];
    }

    /** Persists what the exchange reported about a close, and books and marks what it filled. */
    method BookCloseReport(id: nat, c: CloseArgs, env: Env, order: NormalizedOrder, report: Report, at: int) returns (orderId: nat)
      requires Valid() && db.Valid() && id < |db.positions|
      modifies db, db.state, db.positions
      ensures db.Valid() && db.positions == old(db.positions)
      ensures orderId == |old(db.orders)|
      ensures db.Tables() == BookClose(settings, old(db.Tables()), id, c, env, order, report, at)
    {
      hide RowsOf, Recalculate, RecordExit, PersistedOrder, CloseRequest;
      var position := db.positions[id];
      var request := CloseRequest(settings, position.Row(), c, env, order);
      orderId := PersistOrder(PersistedOrder(position.key, position.side, CloseSource(c.reason), request, report, order.leverage, at));
      if IsFill(report) {
        RecordExitFill(id, ExitFillOf(c, report, at), orderId);
        portfolio.RecalculateState(map[position.key.symbol := report.fillPrice.value]);
      }
    }

    method ClosePosition(id: nat, c: CloseArgs, env: Env, at: int) returns (result: Result<nat, TradingError>)
      requires Valid() && db.Valid() && id < |db.positions|
      modifies db, db.state, db.positions, exchange
      ensures db.Valid() && db.positions == old(db.positions)
      ensures (State(), result) == Execution.ClosePosition(settings, old(State()), id, c, env, at)
    {
      hide RowsOf, NormalizeOrder, Place, BookClose, CloseRequest;
      var position := db.positions[id];
      if position.status != Open { return Failure(PositionNotOpen); }
      var normalized := NormalizeOrder(settings, env.instrument, position.quantity, c.limitPrice, c.referencePrice, position.leverage);
      if normalized.Failure? { return Failure(CannotNormalize(normalized.error)); }
      var order := normalized.value;
      var request := CloseRequest(settings, position.Row(), c, env, order);
      var report := exchange.PlaceOrder(request);
      var orderId := BookCloseReport(id, c, env, order, report, at);
      result := Success(orderId);
    }

    method ClosePositionById(id: nat, referencePrice: Option<real>, env: Env, at: int) returns (result: Result<nat, TradingError>)
      requires Valid() && db.Valid()
      modifies db, db.state, db.positions, exchange
      ensures db.Valid() && db.positions == old(db.positions)
      ensures (State(), result) == Execution.ClosePositionById(settings, old(State()), id, referencePrice, env, at)
    {
      hide RowsOf, Execution.ClosePosition;
      if id >= |db.positions| { return Failure(UnknownPosition); }
      var reference := ManualReference(db.positions[id].Row(), referencePrice);
      result := ClosePosition(id, MarketClose(reference, ManualExit), env, at);
    }

    // ---------- Cancellation ----------

    method CancelOrder(id: nat) returns (result: Result<nat, TradingError>)
      requires Valid() && db.Valid()
      modifies db`orders, exchange
      ensures (State(), result) == Execution.CancelOrder(old(State()), id)
    {
      hide RowsOf, Cancel;
      if id >= |db.orders| { return Failure(UnknownOrder); }
      var order := db.orders[id];
      if order.status != New && order.status != PartiallyFilled { return Failure(OrderNotCancelable); }
      if order.clientId.None? { return Failure(AdapterCouldNotCancel); }
      var canceled := exchange.CancelOrder(order.clientId.value);
      if !canceled { return Failure(AdapterCouldNotCancel); }
      db.orders := db.orders[id := order.(status := Canceled)];
      result := Success(id);
    }

    // ---------- Strategy evaluation ----------

    /** Acts on the open position of an evaluation's key. */
    method ManagePosition(call: Call, id: nat, row: SignalRow, at: int) returns (outcome: Outcome)
      requires Valid() && db.Valid() && id < |db.positions|
      modifies db, db.state, db.positions, exchange
      ensures db.Valid() && db.positions == old(db.positions)
      ensures (State(), outcome) == Manage(settings, old(State()), call, id, row, at)
    {
      hide RowsOf, Execution.ClosePosition, TriggeredExit;
      var triggered := TriggeredExit(db.positions[id].Row(), row);
      if triggered.None? { return Hold; }
      var (price, reason) := triggered.value;
      var result := ClosePosition(id, MarketClose(price, reason), call.env, at);
      outcome := if result.Failure? then Raised(result.error) else Exited(reason);
    }

    method EnterPosition(call: Call, row: SignalRow, at: int) returns (outcome: Outcome)
      requires Valid() && db.Valid()
      modifies db, db.state, db.positions, exchange
      ensures db.Valid() && forall i :: 0 <= i < |db.positions| ==> db.positions[i] in old(db.positions) || fresh(db.positions[i])
      ensures (State(), outcome) == Enter(settings, old(State()), call, row, at)
    {
      hide RowsOf, SubmitEntry, CoolingDown;
      if CoolingDown(settings, RowsOf(db.positions), call) { return Flat(Cooldown); }
      if !ShouldEnter(row, false) { return Flat(NoEntrySignal); }
      var side := DesiredPositionSide(row);
      if call.itype == Spot && side == Short { return Flat(SpotShortDisabled); }
      var result := SubmitEntryOrder(StrategyEntry(settings, call, row), call.env, at);
      outcome := if result.Failure? then Raised(result.error) else Entered(result.value, side);
    }

    /** Marks the portfolio at the latest close of the market. */
    method MarkMarket(call: Call)
      requires Valid() && db.Valid() && call.frame != []
      modifies db.state, db.positions
      ensures State() == MarkAtLatest(old(State()), call)
      ensures |db.Tables().positions| == |db.positions|
    {
      hide RowsOf, Recalculate;
      portfolio.RecalculateState(map[call.symbol := call.frame[|call.frame| - 1].close]);
    }

    method EvaluateStrategy(call: Call, at: int) returns (outcome: Outcome)
      requires Valid() && db.Valid()
      modifies db, db.state, db.positions, exchange
      ensures db.Valid() && forall i :: 0 <= i < |db.positions| ==> db.positions[i] in old(db.positions) || fresh(db.positions[i])
      ensures (State(), outcome) == Evaluate(settings, old(State()), call, at)
    {
      hide RowsOf, Manage, Enter, MarkAtLatest, SelectedSignalRow, BarAlreadyProcessed, FindOpen;
      if call.frame == [] { return NoData; }
      var selected := SelectedSignalRow(settings, call);
      var openPosition := portfolio.GetPosition(KeyOf(call));
      if selected.None? {
        MarkMarket(call);
        return if openPosition.Some? then Hold else Flat(AwaitingBarClose);
      }
      if BarAlreadyProcessed(db.orders, KeyOf(call), selected.value.timestamp) {
        MarkMarket(call);
        return if openPosition.Some? then Hold else Flat(BarProcessed);
      }
      if openPosition.Some? {
        MarkMarket(call);
        outcome := ManagePosition(call, openPosition.value, selected.value, at);
      } else {
        outcome := EnterPosition(call, selected.value, at);
      }
    }

    method PreviewStrategyCandidate(call: Call) returns (preview: Preview)
      requires Valid()
      ensures preview == PreviewCandidate(settings, db.Tables(), call)
    {
      hide RowsOf, CoolingDown, SelectedSignalRow, BarAlreadyProcessed;
      if call.frame == [] { return PreviewNoData; }
      var selected := SelectedSignalRow(settings, call);
      if selected.None? { return PreviewFlat(AwaitingBarClose); }
      var row := selected.value;
      if BarAlreadyProcessed(db.orders, KeyOf(call), row.timestamp) { return PreviewFlat(BarProcessed); }
      var openPosition := portfolio.GetPosition(KeyOf(call));
      if openPosition.Some? { return PreviewOccupied(db.positions[openPosition.value].side, row.confidence); }
      if CoolingDown(settings, RowsOf(db.positions), call) { return PreviewFlat(Cooldown); }
      if !ShouldEnter(row, false) { return PreviewFlat(NoEntrySignal); }
      var side := DesiredPositionSide(row);
      if call.itype == Spot && side == Short { return PreviewFlat(SpotShortDisabled); }
      preview := PreviewEntry(side, row.confidence);
    }
  }
}
