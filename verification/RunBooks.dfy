/** The books balance in every state that the paper engine reaches. */
module RunBooks {
  import opened Common
  import opened Config
  import opened Fees
  import opened Ledger
  import opened LedgerLaws
  import opened PaperExchange
  import opened Instruments
  import opened Risk
  import opened Execution
  import opened Evolution
  import opened Runs
  import OrderBook

  // ---------- Fill prices ----------

  ghost predicate NonNegativeBook(env: Env) {
    env.book.Some? ==>
      && (forall l :: l in env.book.value.bids ==> l.price >= 0.0)
      && (forall l :: l in env.book.value.asks ==> l.price >= 0.0)
  }

  ghost predicate SaneSlippage(settings: Settings) {
    0.0 <= BpsToFraction(settings.defaultSlippageBps) <= 1.0
  }

  /** The candle price before slippage. */
  function BasePrice(request: OrderRequest): real {
    if request.orderType == Limit then OrElse(request.limitPrice, request.referencePrice) else request.referencePrice
  }

  lemma CandlePriceIsNonNegative(fees: FeeSchedule, request: OrderRequest)
    requires 0.0 <= BpsToFraction(fees.slippageBps) <= 1.0 && BasePrice(request) >= 0.0
    ensures CandlePrice(fees, request) >= 0.0
  {
    NonNegativeProduct(BasePrice(request), 1.0 + BpsToFraction(fees.slippageBps));
    NonNegativeProduct(BasePrice(request), 1.0 - BpsToFraction(fees.slippageBps));
  }

  lemma DepthPriceIsNonNegative(request: OrderRequest, book: OrderBook.Book)
    requires forall l :: l in book.bids ==> l.price >= 0.0
    requires forall l :: l in book.asks ==> l.price >= 0.0
    ensures var price := DepthOutcome(request, book).averagePrice;
            price.Some? ==> price.value >= 0.0
  {
    var levels := if request.side == Buy then book.asks else book.bids;
    OrderBook.AverageIsNonNegative(levels, request.quantity);
    var eligible := OrderBook.Eligible(request.side, OrElse(request.limitPrice, request.referencePrice), levels);
    OrderBook.AverageIsNonNegative(eligible, request.quantity);
  }

  lemma FillPriceIsNonNegative(fees: FeeSchedule, request: OrderRequest, id: nat)
    requires 0.0 <= BpsToFraction(fees.slippageBps) <= 1.0 && BasePrice(request) >= 0.0
    requires request.book.Some? ==>
               && (forall l :: l in request.book.value.bids ==> l.price >= 0.0)
               && (forall l :: l in request.book.value.asks ==> l.price >= 0.0)
    ensures Answer(fees, request, id).fillPrice.Some? ==> Answer(fees, request, id).fillPrice.value >= 0.0
  {
    CandlePriceIsNonNegative(fees, request);
    if request.book.Some? {
      DepthPriceIsNonNegative(request, request.book.value);
    }
  }

  // ---------- Actions keep the books ----------

  ghost predicate SaneEntry(settings: Settings, a: EntryArgs, env: Env) {
    SaneSlippage(settings) && NonNegativeBook(env) && a.referencePrice >= 0.0
  }

  lemma PreparationKeepsBooks(settings: Settings, t: Tables, a: EntryArgs, env: Env)
    requires Books(t)
    ensures Books(PrepareEntry(settings, t, a, env).0)
  {
    RepricingKeepsBooks(t, map[a.key.symbol := a.referencePrice]);
  }

  lemma OrdersDoNotMatter(t: Tables, orders: seq<OrderRow>)
    requires Books(t)
    ensures Books(t.(orders := orders))
  {
  }

  lemma BookingKeepsBooks(settings: Settings, t: Tables, a: EntryArgs, env: Env, order: NormalizedOrder, report: Report, at: int)
    requires Books(t)
    requires report.fillPrice.Some? ==> report.fillPrice.value >= 0.0
    requires a.key.itype == Spot ==> a.side == Long
    ensures Books(BookEntry(settings, t, a, env, order, report, at))
  {
    var prices := map[a.key.symbol := OrElse(report.fillPrice, a.referencePrice)];
    var row := PersistedOrder(a.key, a.side, a.source, EntryRequest(settings, a, env, order), report, order.leverage, at);
    if IsFill(report) {
      var fill := EntryFillOf(settings, a, env, order, report, at);
      var ordered := t.(orders := t.orders + [row.(liquidationPrice := fill.liquidationPrice)]);
      OrdersDoNotMatter(t, ordered.orders);
      EntryKeepsBooks(ordered, fill, |t.orders|);
      RepricingKeepsBooks(RecordEntry(ordered, fill, |t.orders|), prices);
    } else {
      OrdersDoNotMatter(t, t.orders + [row]);
      RepricingKeepsBooks(t.(orders := t.orders + [row]), prices);
    }
  }

  /** The report of an approved entry never carries a negative price. */
  lemma ApprovedFillIsNonNegative(settings: Settings, t: Tables, ex: ExchangeState, a: EntryArgs, env: Env,
                                  order: NormalizedOrder, at: int)
    requires SaneEntry(settings, a, env)
    requires EvaluateEntry(settings, t, ProposalOf(settings, a, env, order), at).1 == Approved
    ensures var report := Place(FeesOf(settings), ex, EntryRequest(settings, a, env, order)).1;
            report.fillPrice.Some? ==> report.fillPrice.value >= 0.0
    ensures a.key.itype == Spot ==> a.side == Long
  {
    ApprovalChecks(settings, t, ProposalOf(settings, a, env, order), at);
    FillPriceIsNonNegative(FeesOf(settings), EntryRequest(settings, a, env, order), ex.nextId);
  }

  lemma EntryActionKeepsBooks(settings: Settings, w: World, a: EntryArgs, env: Env, at: int)
    requires Books(w.tables) && SaneEntry(settings, a, env)
    ensures Books(SubmitEntry(settings, w, a, env, at).0.tables)
  {
    var (marked, prepared) := PrepareEntry(settings, w.tables, a, env);
    PreparationKeepsBooks(settings, w.tables, a, env);
    if prepared.Success? {
      var e := ProposalOf(settings, a, env, prepared.value);
      var (checked, decision) := EvaluateEntry(settings, marked, e, at);
      RepricingKeepsBooks(marked, map[e.symbol := e.price]);
      OrdersDoNotMatter(checked, checked.orders + [RejectedOrder(a, at)]);
      if decision.Approved? {
        ApprovedFillIsNonNegative(settings, marked, w.exchange, a, env, prepared.value, at);
        BookingKeepsBooks(settings, checked, a, env, prepared.value,
                          Place(FeesOf(settings), w.exchange, EntryRequest(settings, a, env, prepared.value)).1, at);
      }
    }
  }

  lemma BookCloseKeepsBooks(settings: Settings, t: Tables, id: nat, c: CloseArgs, env: Env, order: NormalizedOrder,
                            report: Report, at: int)
    requires Books(t) && id < |t.positions| && t.positions[id].status == Open
    ensures Books(BookClose(settings, t, id, c, env, order, report, at))
  {
    var after := BookClose(settings, t, id, c, env, order, report, at);
    var ordered := t.(orders := after.orders);
    OrdersDoNotMatter(t, after.orders);
    if IsFill(report) {
      ExitKeepsBooks(ordered, id, ExitFillOf(c, report, at), |t.orders|);
      RepricingKeepsBooks(RecordExit(ordered, id, ExitFillOf(c, report, at), |t.orders|),
                          map[t.positions[id].key.symbol := report.fillPrice.value]);
    }
  }

  lemma CloseActionKeepsBooks(settings: Settings, w: World, id: nat, c: CloseArgs, env: Env, at: int)
    requires Books(w.tables) && id < |w.tables.positions|
    ensures Books(ClosePosition(settings, w, id, c, env, at).0.tables)
  {
    var p := w.tables.positions[id];
    var normalized := NormalizeOrder(settings, env.instrument, p.quantity, c.limitPrice, c.referencePrice, p.leverage);
    if p.status == Open && normalized.Success? {
      BookCloseKeepsBooks(settings, w.tables, id, c, env, normalized.value,
                          Place(FeesOf(settings), w.exchange, CloseRequest(settings, p, c, env, normalized.value)).1, at);
    }
  }

  ghost predicate SaneCall(settings: Settings, call: Call) {
    SaneSlippage(settings) && NonNegativeBook(call.env) && forall row :: row in call.frame ==> row.close >= 0.0
  }

  lemma EvaluationKeepsBooks(settings: Settings, w: World, call: Call, at: int)
    requires Books(w.tables) && SaneCall(settings, call)
    ensures Books(Evaluate(settings, w, call, at).0.tables)
  {
    hide SubmitEntry, ClosePosition, Books, TriggeredExit, FindOpen, BarAlreadyProcessed, CoolingDown, SaneSlippage, NonNegativeBook,
         Totals, Timeframe.Length;
    if call.frame != [] {
      RepricingKeepsBooks(w.tables, map[call.symbol := call.frame[|call.frame| - 1].close]);
      var selected := SelectedSignalRow(settings, call);
      var open := FindOpen(w.tables.positions, KeyOf(call));
      if selected.Some? {
        if open.Some? {
          var marked := MarkAtLatest(w, call);
          var exit := TriggeredExit(marked.tables.positions[open.value], selected.value);
          if exit.Some? {
            CloseActionKeepsBooks(settings, marked, open.value, MarketClose(exit.value.0, exit.value.1), call.env, at);
          }
        } else {
          EntryActionKeepsBooks(settings, w, StrategyEntry(settings, call, selected.value), call.env, at);
        }
      }
    }
  }

  /** Prices that are not negative, and slippage between 0 and 100%. */
  ghost predicate SaneAction(settings: Settings, action: Action) {
    match action
    case EvaluateCall(call, _) => SaneCall(settings, call)
    case SubmitOther(args, env, _) => SaneEntry(settings, args, env)
    case _ => true
  }

  lemma ActionKeepsBooks(settings: Settings, w: World, action: Action)
    requires Books(w.tables) && SaneAction(settings, action)
    ensures Books(Apply(settings, w, action).tables)
  {
    hide Books, Evaluate, SubmitEntry, ClosePosition, SaneCall, SaneEntry, Recalculate, RecordFunding, Cancel;
    match action
    case EvaluateCall(call, at) => EvaluationKeepsBooks(settings, w, call, at);
    case SubmitOther(args, env, at) => EntryActionKeepsBooks(settings, w, args, env, at);
    case CloseById(id, reference, env, at) =>
      if id < |w.tables.positions| {
        CloseActionKeepsBooks(settings, w, id, MarketClose(ManualReference(w.tables.positions[id], reference), ManualExit), env, at);
      }
    case CancelById(orderId, _) => OrdersDoNotMatter(w.tables, Apply(settings, w, action).tables.orders);
    case ChargeFunding(id, cost, at) =>
      if id < |w.tables.positions| {
        FundingKeepsBooks(w.tables, id, cost, at);
      }
    case RepriceTo(prices, _) => RepricingKeepsBooks(w.tables, prices);
  }

  ghost predicate SaneRun(settings: Settings, actions: seq<Action>) {
    forall i :: 0 <= i < |actions| ==> SaneAction(settings, actions[i])
  }

  lemma {:induction false} EveryRunKeepsBooks(settings: Settings, actions: seq<Action>)
    requires SaneRun(settings, actions)
    ensures Books(Run(settings, actions).tables)
  {
    hide Apply;
    if actions != [] {
      var init := actions[..|actions| - 1];
      EveryRunKeepsBooks(settings, init);
      ActionKeepsBooks(settings, Run(settings, init), actions[|actions| - 1]);
    }
  }

  // ---------- Without funding on spot positions ----------

  /** No spot position carries funding, and no spot exit has carried any. */
  ghost predicate SpotUnfunded(t: Tables) {
    && (forall i :: 0 <= i < |t.positions| && t.positions[i].key.itype == Spot ==> t.positions[i].fundingCost == 0.0)
    && SumBy(t.trades, SpotFundingOf) == 0.0
  }

  lemma UnfundedRowStaysUnfunded(p: PositionRow, x: ExitFill, fees: real, quantity: real, orderId: nat, id: nat)
    requires p.key.itype == Spot ==> p.fundingCost == 0.0
    ensures var left := ExitedPosition(p, x, fees, quantity);
            left.key == p.key && (p.key.itype == Spot ==> left.fundingCost == 0.0)
    ensures SpotFundingOf(ExitTrade(p, x, fees, quantity, orderId, id)) == 0.0
  {
    hide GrossPnl, ExitRealized, ExitCashFlow, CollateralRelease, RemainingQuantity, CloseQuantity;
    if p.key.itype == Spot {
      ProRataOfNothing(0.0, CloseQuantity(p, x), p.quantity);
    }
  }

  lemma ExitKeepsSpotUnfunded(t: Tables, id: nat, x: ExitFill, orderId: nat)
    requires SpotUnfunded(t) && id < |t.positions|
    ensures SpotUnfunded(RecordExit(t, id, x, orderId))
  {
    hide ExitedPosition, ExitTrade, SpotFundingOf, SumBy, EntryFees, EntryQuantity;
    var p := t.positions[id];
    var fees, quantity := EntryFees(t.trades, id), EntryQuantity(t.trades, id);
    SumByAppend(t.trades, ExitTrade(p, x, fees, quantity, orderId, id), SpotFundingOf);
    UnfundedRowStaysUnfunded(p, x, fees, quantity, orderId, id);
  }

  lemma EntryKeepsSpotUnfunded(t: Tables, e: EntryFill, orderId: nat)
    requires SpotUnfunded(t)
    ensures SpotUnfunded(RecordEntry(t, e, orderId))
  {
    hide EntryCollateral, StopPrice, TakeProfitPrice, Notional, EntryCashFlow, SumBy;
    SumByAppend(t.trades, EntryTrade(e, orderId, |t.positions|), SpotFundingOf);
  }

  lemma FundingKeepsSpotUnfunded(t: Tables, id: nat, cost: real, at: int)
    requires SpotUnfunded(t) && id < |t.positions| && t.positions[id].key.itype == Perpetual
    ensures SpotUnfunded(RecordFunding(t, id, cost, at))
  {
    var orderId := LatestTradeOrder(t.trades, id);
    if orderId.Some? {
      SumByAppend(t.trades, FundingTrade(t.positions[id], cost, orderId.value, id, at), SpotFundingOf);
    }
  }

  lemma MarkingKeepsSpotUnfunded(t: Tables, prices: map<string, real>)
    requires SpotUnfunded(t)
    ensures SpotUnfunded(Recalculate(t, prices))
  {
    hide Totals, SumBy;
  }

  lemma OrdersAreUnfunded(t: Tables, orders: seq<OrderRow>)
    requires SpotUnfunded(t)
    ensures SpotUnfunded(t.(orders := orders))
  {
    hide SumBy;
  }

  lemma EntryActionKeepsSpotUnfunded(settings: Settings, w: World, a: EntryArgs, env: Env, at: int)
    requires SpotUnfunded(w.tables)
    ensures SpotUnfunded(SubmitEntry(settings, w, a, env, at).0.tables)
  {
    hide SpotUnfunded, Recalculate, NormalizeOrder, RequestedQuantity, Decide, ProposalOf, EntryRequest, BookEntry, Place;
    var (marked, prepared) := PrepareEntry(settings, w.tables, a, env);
    MarkingKeepsSpotUnfunded(w.tables, map[a.key.symbol := a.referencePrice]);
    if prepared.Success? {
      var e := ProposalOf(settings, a, env, prepared.value);
      var (checked, decision) := EvaluateEntry(settings, marked, e, at);
      MarkingKeepsSpotUnfunded(marked, map[e.symbol := e.price]);
      OrdersAreUnfunded(checked, checked.orders + [RejectedOrder(a, at)]);
      if decision.Approved? {
        BookingKeepsSpotUnfunded(settings, checked, a, env, prepared.value,
                                 Place(FeesOf(settings), w.exchange, EntryRequest(settings, a, env, prepared.value)).1, at);
      }
    }
  }

  lemma BookingKeepsSpotUnfunded(settings: Settings, t: Tables, a: EntryArgs, env: Env, order: NormalizedOrder,
                                 report: Report, at: int)
    requires SpotUnfunded(t)
    ensures SpotUnfunded(BookEntry(settings, t, a, env, order, report, at))
  {
    if IsFill(report) {
      EntryKeepsSpotUnfunded(t, EntryFillOf(settings, a, env, order, report, at), |t.orders|);
    }
  }

  lemma BookCloseKeepsSpotUnfunded(settings: Settings, t: Tables, id: nat, c: CloseArgs, env: Env,
                                   order: NormalizedOrder, report: Report, at: int)
    requires SpotUnfunded(t) && id < |t.positions|
    ensures SpotUnfunded(BookClose(settings, t, id, c, env, order, report, at))
  {
    if IsFill(report) {
      ExitKeepsSpotUnfunded(t, id, ExitFillOf(c, report, at), |t.orders|);
    }
  }

  lemma CloseActionKeepsSpotUnfunded(settings: Settings, w: World, id: nat, c: CloseArgs, env: Env, at: int)
    requires SpotUnfunded(w.tables) && id < |w.tables.positions|
    ensures SpotUnfunded(ClosePosition(settings, w, id, c, env, at).0.tables)
  {
    var p := w.tables.positions[id];
    var normalized := NormalizeOrder(settings, env.instrument, p.quantity, c.limitPrice, c.referencePrice, p.leverage);
    if p.status == Open && normalized.Success? {
      BookCloseKeepsSpotUnfunded(settings, w.tables, id, c, env, normalized.value,
                                 Place(FeesOf(settings), w.exchange, CloseRequest(settings, p, c, env, normalized.value)).1, at);
    }
  }

  lemma EvaluationKeepsSpotUnfunded(settings: Settings, w: World, call: Call, at: int)
    requires SpotUnfunded(w.tables)
    ensures SpotUnfunded(Evaluate(settings, w, call, at).0.tables)
  {
    hide SubmitEntry, ClosePosition, SpotUnfunded, TriggeredExit, FindOpen, BarAlreadyProcessed, CoolingDown, Totals,
         Timeframe.Length;
    if call.frame != [] {
      MarkingKeepsSpotUnfunded(w.tables, map[call.symbol := call.frame[|call.frame| - 1].close]);
      var selected, open := SelectedSignalRow(settings, call), FindOpen(w.tables.positions, KeyOf(call));
      if selected.Some? {
        if open.Some? {
          var marked := MarkAtLatest(w, call);
          var exit := TriggeredExit(marked.tables.positions[open.value], selected.value);
          if exit.Some? {
            CloseActionKeepsSpotUnfunded(settings, marked, open.value, MarketClose(exit.value.0, exit.value.1), call.env, at);
          }
        } else {
          EntryActionKeepsSpotUnfunded(settings, w, StrategyEntry(settings, call, selected.value), call.env, at);
        }
      }
    }
  }

  lemma ActionKeepsSpotUnfunded(settings: Settings, w: World, action: Action)
    requires SpotUnfunded(w.tables) && FundsPerpetual(w, action)
    ensures SpotUnfunded(Apply(settings, w, action).tables)
  {
    hide Evaluate, SubmitEntry, ClosePosition, SpotUnfunded, Recalculate, RecordFunding, Cancel;
    match action
    case EvaluateCall(call, at) => EvaluationKeepsSpotUnfunded(settings, w, call, at);
    case SubmitOther(args, env, at) => EntryActionKeepsSpotUnfunded(settings, w, args, env, at);
    case CloseById(id, reference, env, at) =>
      if id < |w.tables.positions| {
        CloseActionKeepsSpotUnfunded(settings, w, id,
          MarketClose(ManualReference(w.tables.positions[id], reference), ManualExit), env, at);
      }
    case CancelById(orderId, _) => OrdersAreUnfunded(w.tables, Apply(settings, w, action).tables.orders);
    case ChargeFunding(id, cost, at) =>
      if id < |w.tables.positions| {
        FundingKeepsSpotUnfunded(w.tables, id, cost, at);
      }
    case RepriceTo(prices, _) => MarkingKeepsSpotUnfunded(w.tables, prices);
  }

  ghost predicate FundsPerpetual(w: World, action: Action) {
    action.ChargeFunding? && action.id < |w.tables.positions| ==>
      w.tables.positions[action.id].key.itype == Perpetual
  }

  /** Funding is only charged to perpetual positions. */
  ghost predicate FundsPerpetuals(settings: Settings, actions: seq<Action>) {
    forall i :: 0 <= i < |actions| ==> FundsPerpetual(Run(settings, actions[..i]), actions[i])
  }

  lemma {:induction false} EveryRunIsSpotUnfunded(settings: Settings, actions: seq<Action>)
    requires FundsPerpetuals(settings, actions)
    ensures SpotUnfunded(Run(settings, actions).tables)
  {
    hide Apply;
    if actions != [] {
      var n := |actions| - 1;
      forall i | 0 <= i < n
        ensures FundsPerpetual(Run(settings, actions[..n][..i]), actions[..n][i])
      {
        assert actions[..n][..i] == actions[..i];
      }
      EveryRunIsSpotUnfunded(settings, actions[..n]);
      ActionKeepsSpotUnfunded(settings, Run(settings, actions[..n]), actions[n]);
    }
  }

  lemma {:induction false} StartingBalanceIsKept(settings: Settings, actions: seq<Action>)
    ensures Run(settings, actions).tables.portfolio.startingBalance == settings.paperStartingBalance
  {
    hide Apply;
    if actions != [] {
      StartingBalanceIsKept(settings, actions[..|actions| - 1]);
      ActionKeepsStart(settings, Run(settings, actions[..|actions| - 1]), actions[|actions| - 1]);
    }
  }

  lemma ActionKeepsStart(settings: Settings, w: World, action: Action)
    ensures Apply(settings, w, action).tables.portfolio.startingBalance == w.tables.portfolio.startingBalance
  {
    hide Place, Decide, NormalizeOrder, ExitedPosition, ExitTrade, EnteredPosition, EntryTrade;
    if action.EvaluateCall? {
      EvaluationKeepsStart(settings, w, action.call, action.at);
    }
  }

  lemma EvaluationKeepsStart(settings: Settings, w: World, call: Call, at: int)
    ensures Evaluate(settings, w, call, at).0.tables.portfolio.startingBalance == w.tables.portfolio.startingBalance
  {
    hide SubmitEntry, ClosePosition, CoolingDown;
    if call.frame != [] && SelectedSignalRow(settings, call).Some? {
      var row, open := SelectedSignalRow(settings, call).value, FindOpen(w.tables.positions, KeyOf(call));
      EntryKeepsStart(settings, w, StrategyEntry(settings, call, row), call.env, at);
      if open.Some? {
        var marked := MarkAtLatest(w, call);
        var exit := TriggeredExit(marked.tables.positions[open.value], row);
        if exit.Some? {
          CloseKeepsStart(settings, marked, open.value, MarketClose(exit.value.0, exit.value.1), call.env, at);
        }
      }
    }
  }

  lemma EntryKeepsStart(settings: Settings, w: World, a: EntryArgs, env: Env, at: int)
    ensures SubmitEntry(settings, w, a, env, at).0.tables.portfolio.startingBalance == w.tables.portfolio.startingBalance
  {
    hide Place, Decide, NormalizeOrder, EnteredPosition, EntryTrade;
  }

  lemma CloseKeepsStart(settings: Settings, w: World, id: nat, c: CloseArgs, env: Env, at: int)
    requires id < |w.tables.positions|
    ensures ClosePosition(settings, w, id, c, env, at).0.tables.portfolio.startingBalance == w.tables.portfolio.startingBalance
  {
    hide Place, NormalizeOrder, ExitedPosition, ExitTrade;
  }

  /** Over every run of entries, closes, cancellations, repricings and funding charges: the cash, the
      margin of the perpetual positions and the cost of the spot positions, open or closed, are the
      starting balance and the realized results less the entry fees not yet charged exactly when the
      funding that spot exits carried sums to zero. */
  lemma ConservationOfEveryRun(settings: Settings, actions: seq<Action>)
    requires SaneRun(settings, actions)
    ensures var t := Run(settings, actions).tables;
            CashBalance(t) + SumBy(t.positions, Locked) ==
            settings.paperStartingBalance + SumBy(t.trades, RealizedOf) - UnallocatedFees(t)
            <==> SumBy(t.trades, SpotFundingOf) == 0.0
  {
    hide Run;
    EveryRunKeepsBooks(settings, actions);
    StartingBalanceIsKept(settings, actions);
  }

  /** So it is whenever funding is only charged to perpetual positions. */
  lemma LedgerConservation(settings: Settings, actions: seq<Action>)
    requires SaneRun(settings, actions) && FundsPerpetuals(settings, actions)
    ensures var t := Run(settings, actions).tables;
            CashBalance(t) + SumBy(t.positions, Locked) ==
            settings.paperStartingBalance + SumBy(t.trades, RealizedOf) - UnallocatedFees(t)
  {
    hide Run;
    ConservationOfEveryRun(settings, actions);
    EveryRunIsSpotUnfunded(settings, actions);
  }

  /** After a recalculation at the end of any run, the equity is the starting balance and the results, less
      the entry fees not yet charged, plus the funding that spot exits carried, up to the dust. */
  lemma EquityOfEveryRun(settings: Settings, actions: seq<Action>, prices: map<string, real>)
    requires SaneRun(settings, actions)
    ensures var r := Recalculate(Run(settings, actions).tables, prices);
            var gap := settings.paperStartingBalance + r.portfolio.realizedPnl + r.portfolio.unrealizedPnl
                       - UnallocatedFees(r) + SumBy(r.trades, SpotFundingOf) - r.portfolio.lastEquity;
            0.0 <= gap <= SumBy(r.positions, DustAllowance)
  {
    hide Run;
    EveryRunKeepsBooks(settings, actions);
    StartingBalanceIsKept(settings, actions);
    EquityIdentity(Run(settings, actions).tables, prices);
  }

  /** Without the funding term whenever funding is only charged to perpetual positions. */
  lemma EquityOfPerpetualFunding(settings: Settings, actions: seq<Action>, prices: map<string, real>)
    requires SaneRun(settings, actions) && FundsPerpetuals(settings, actions)
    ensures var r := Recalculate(Run(settings, actions).tables, prices);
            var gap := settings.paperStartingBalance + r.portfolio.realizedPnl + r.portfolio.unrealizedPnl
                       - UnallocatedFees(r) - r.portfolio.lastEquity;
            0.0 <= gap <= SumBy(r.positions, DustAllowance)
  {
    hide Run, Totals, UnallocatedFees;
    EquityOfEveryRun(settings, actions, prices);
    EveryRunIsSpotUnfunded(settings, actions);
  }
}
