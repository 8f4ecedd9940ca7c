/** The isolated margin of the paper engine: what triggers an exit of a perpetual position lies on the solvent
    side of its liquidation price, so a candle fill leaves the maintenance margin, less its slippage. */
module MarginLaws {
  import opened Common
  import opened Config
  import opened Fees
  import opened Strategy
  import opened Ledger
  import opened LedgerLaws
  import opened PaperExchange
  import opened Instruments
  import opened Risk
  import opened Execution
  import opened Evolution
  import opened Runs
  import opened RunBooks
  import BacktestLaws

  // ---------- What an entry stores ----------

  /** The prices that a perpetual entry stores, and the inputs they were computed from. */
  ghost predicate StoredWith(settings: Settings, p: PositionRow, stopLossPct: real, takeProfitPct: real, mmr: real) {
    && p.stopLossPrice == StopPrice(p.side, p.avgEntryPrice, stopLossPct)
    && p.takeProfitPrice == TakeProfitPrice(p.side, p.avgEntryPrice, takeProfitPct)
    && p.liquidationPrice == Some(EstimateLiquidationPrice(settings, p.avgEntryPrice, p.side, p.leverage, mmr))
  }

  /** The margin at this leverage is at least the maintenance margin. */
  ghost predicate CoversMaintenance(settings: Settings, leverage: real, mmr: real) {
    Max(mmr, settings.defaultMaintenanceMarginPct) <= 1.0 / Max(leverage, 1.0)
  }

  /** A perpetual position with a take-profit that is not negative, and enough margin. */
  ghost predicate Margined(settings: Settings, p: PositionRow) {
    p.key.itype == Perpetual ==>
      exists stop, profit, mmr ::
        StoredWith(settings, p, stop, profit, mmr) && profit >= 0.0 && CoversMaintenance(settings, p.leverage, mmr)
  }

  // ---------- The raw exit price ----------

  /** The liquidation price without its clamp; it lies on the losing side of the entry price. */
  lemma LiquidationIsUnclamped(settings: Settings, side: PositionSide, entry: real, leverage: real, mmr: real)
    requires entry >= 0.0 && settings.defaultMaintenanceMarginPct >= 0.0 && CoversMaintenance(settings, leverage, mmr)
    ensures var i, m := 1.0 / Max(leverage, 1.0), Max(mmr, settings.defaultMaintenanceMarginPct);
            var liquidation := EstimateLiquidationPrice(settings, entry, side, leverage, mmr);
            if side == Long then liquidation == entry * (1.0 - i + m) && 0.0 <= liquidation <= entry
            else liquidation == entry * (1.0 + i - m) && liquidation >= entry
  {
    var i, m := 1.0 / Max(leverage, 1.0), Max(mmr, settings.defaultMaintenanceMarginPct);
    assert 0.0 <= m <= i <= 1.0 by {
      InverseIsAtMostOne(Max(leverage, 1.0));
    }
    BacktestLaws.RoomAtEntry(entry, i, m, 0.0);
    NonNegativeProduct(entry, 1.0 - i + m);
    NonNegativeProduct(entry, i - m);
  }

  lemma InverseIsAtMostOne(l: real)
    requires l >= 1.0
    ensures 0.0 < 1.0 / l <= 1.0
  {
    var i := 1.0 / l;
    assert i * l == 1.0;
  }

  lemma TakeProfitGains(side: PositionSide, entry: real, profit: real)
    requires entry >= 0.0 && profit >= 0.0
    ensures var price := TakeProfitPrice(side, entry, profit);
            if side == Long then price >= entry else price <= entry
  {
    BacktestLaws.RoomAtEntry(entry, 0.0, 0.0, profit);
    NonNegativeProduct(entry, profit);
  }

  /** Whichever reason fires, the exit on an opposite signal included, the raw price is on the solvent side
      of the liquidation price; and a bar that triggers no exit closes on that side. */
  lemma TriggeredExitIsSolvent(settings: Settings, p: PositionRow, row: SignalRow, stop: real, profit: real, mmr: real)
    requires StoredWith(settings, p, stop, profit, mmr) && profit >= 0.0 && CoversMaintenance(settings, p.leverage, mmr)
    requires settings.defaultMaintenanceMarginPct >= 0.0 && p.avgEntryPrice > 0.0 && BacktestLaws.ValidRow(row)
    ensures var exit := TriggeredExit(p, row);
            BacktestLaws.OnSolventSide(p.side, if exit.Some? then exit.value.0 else row.close, p.liquidationPrice.value)
  {
    LiquidationIsUnclamped(settings, p.side, p.avgEntryPrice, p.leverage, mmr);
    TakeProfitGains(p.side, p.avgEntryPrice, profit);
    hide StopPrice, TakeProfitPrice, EstimateLiquidationPrice, CoversMaintenance, Max, ShouldExit, DesiredPositionSide;
  }

  // ---------- What the fill leaves ----------

  /** The maintenance margin of a quantity, less the slippage of a fill at the liquidation price. */
  function Floor(m: real, slippageBps: real, entry: real, quantity: real, liquidation: real): real {
    m * Notional(entry, quantity) - BpsToFraction(slippageBps) * (quantity * liquidation)
  }

  /** What a trade gives back before its fee and funding is at least the floor of what it closes. */
  ghost predicate KeepsMaintenance(settings: Settings, p: PositionRow, m: real, sold: TradeRow)
    requires p.liquidationPrice.Some?
  {
    sold.cashFlow + sold.feePaid + sold.fundingCost >=
    Floor(m, settings.defaultSlippageBps, p.avgEntryPrice, sold.quantity, p.liquidationPrice.value)
  }

  /** The margin that is released is that of the quantity that is closed. */
  lemma ReleasedMargin(avg: real, quantity: real, part: real, l: real, collateral: real)
    requires quantity > 0.0 && 0.0 <= part <= quantity && avg >= 0.0 && l >= 1.0
    requires collateral == Notional(avg, quantity) / l
    ensures ProRata(collateral, part, quantity) == Notional(avg, part) / l
  {
    MarginAfterRelease(avg, quantity, part, l, collateral);
    UnitMargin(avg, quantity, l);
    UnitMargin(avg, quantity - part, l);
    UnitMargin(avg, part, l);
    hide ProRata;
  }

  /** What a perpetual exit pays before its fee and funding. */
  lemma PaidBack(p: PositionRow, x: ExitFill, fees: real, quantity: real, orderId: nat, id: nat)
    requires p.key.itype == Perpetual
    ensures var sold := ExitTrade(p, x, fees, quantity, orderId, id);
            && sold.quantity == CloseQuantity(p, x)
            && sold.cashFlow + sold.feePaid + sold.fundingCost ==
               CollateralRelease(p, x) + PnlOn(p.side, x.price, p.avgEntryPrice, CloseQuantity(p, x))
  {
    hide CloseQuantity, CollateralRelease, FundingAlloc, ExitRealized, PnlOn;
  }

  lemma FillKeepsFloor(side: PositionSide, entry: real, q: real, l: real, m: real, slippageBps: real, raw: real, liq: real)
    requires q >= 0.0 && l >= 1.0 && 0.0 <= BpsToFraction(slippageBps) <= 1.0
    requires liq == if side == Long then entry * (1.0 - 1.0 / l + m) else entry * (1.0 + 1.0 / l - m)
    requires BacktestLaws.OnSolventSide(side, raw, liq)
    ensures Notional(entry, q) / l + PnlOn(side, ApplySlippage(raw, ExitSide(side), slippageBps), entry, q) >=
            Floor(m, slippageBps, entry, q, liq)
  {
    var sl, fill := BpsToFraction(slippageBps), ApplySlippage(raw, ExitSide(side), slippageBps);
    var floor, gross := m * (entry * q) - sl * (q * liq), PnlOn(side, fill, entry, q);
    hide BpsToFraction;
    if side == Long {
      BacktestLaws.LongExitFloor(entry, q, l, 1.0 / l, m, sl, raw, liq, fill, gross, entry * q / l, floor);
    } else {
      BacktestLaws.ShortExitFloor(entry, q, l, 1.0 / l, m, sl, raw, liq, fill, gross, entry * q / l, floor);
    }
  }

  /** A fill at the slipped price of a solvent exit leaves at least the floor. */
  lemma SolventFillKeepsFloor(settings: Settings, side: PositionSide, entry: real, q: real, leverage: real, mmr: real, raw: real)
    requires q >= 0.0 && entry >= 0.0 && settings.defaultMaintenanceMarginPct >= 0.0
    requires SaneSlippage(settings) && CoversMaintenance(settings, leverage, mmr)
    requires BacktestLaws.OnSolventSide(side, raw, EstimateLiquidationPrice(settings, entry, side, leverage, mmr))
    ensures Notional(entry, q) / Max(leverage, 1.0)
            + PnlOn(side, ApplySlippage(raw, ExitSide(side), settings.defaultSlippageBps), entry, q) >=
            Floor(Max(mmr, settings.defaultMaintenanceMarginPct), settings.defaultSlippageBps, entry, q,
                  EstimateLiquidationPrice(settings, entry, side, leverage, mmr))
  {
    hide BpsToFraction, EstimateLiquidationPrice, CoversMaintenance, Floor, PnlOn, ApplySlippage, Notional, BacktestLaws.OnSolventSide;
    assert Max(leverage, 1.0) >= 1.0;
    hide Max;
    LiquidationIsUnclamped(settings, side, entry, leverage, mmr);
    FillKeepsFloor(side, entry, q, Max(leverage, 1.0), Max(mmr, settings.defaultMaintenanceMarginPct), settings.defaultSlippageBps,
                   raw, EstimateLiquidationPrice(settings, entry, side, leverage, mmr));
  }

  /** A part that is sold at the slipped price of a solvent exit keeps the maintenance margin. */
  lemma SolventSaleKeepsMaintenance(settings: Settings, p: PositionRow, x: ExitFill, raw: real, mmr: real,
                                    fees: real, quantity: real, orderId: nat, id: nat)
    requires p.key.itype == Perpetual && p.quantity > 0.0 && p.avgEntryPrice >= 0.0 && x.filled > 0.0
    requires p.collateral == Notional(p.avgEntryPrice, p.quantity) / Max(p.leverage, 1.0)
    requires p.liquidationPrice == Some(EstimateLiquidationPrice(settings, p.avgEntryPrice, p.side, p.leverage, mmr))
    requires CoversMaintenance(settings, p.leverage, mmr) && settings.defaultMaintenanceMarginPct >= 0.0
    requires SaneSlippage(settings) && BacktestLaws.OnSolventSide(p.side, raw, p.liquidationPrice.value)
    requires x.price == ApplySlippage(raw, ExitSide(p.side), settings.defaultSlippageBps)
    ensures KeepsMaintenance(settings, p, Max(mmr, settings.defaultMaintenanceMarginPct),
                             ExitTrade(p, x, fees, quantity, orderId, id))
  {
    hide ExitTrade, CloseQuantity, PnlOn, Notional, ApplySlippage, SaneSlippage, BacktestLaws.OnSolventSide, CoversMaintenance,
         EstimateLiquidationPrice, ProRata, Floor;
    assert Max(p.leverage, 1.0) >= 1.0;
    hide Max;
    ClosesPart(p, x);
    PaidBack(p, x, fees, quantity, orderId, id);
    ReleasedMargin(p.avgEntryPrice, p.quantity, CloseQuantity(p, x), Max(p.leverage, 1.0), p.collateral);
    SolventFillKeepsFloor(settings, p.side, p.avgEntryPrice, CloseQuantity(p, x), p.leverage, mmr, raw);
  }

  /** The trade of any part that is sold at the slipped price of a triggered exit keeps the maintenance margin. */
  lemma ExitKeepsMaintenance(settings: Settings, t: Tables, id: nat, row: SignalRow, x: ExitFill, orderId: nat,
                             stop: real, profit: real, mmr: real)
    requires Books(t) && CanExit(t, id, x) && t.positions[id].key.itype == Perpetual && t.positions[id].avgEntryPrice > 0.0
    requires StoredWith(settings, t.positions[id], stop, profit, mmr) && profit >= 0.0
    requires CoversMaintenance(settings, t.positions[id].leverage, mmr) && settings.defaultMaintenanceMarginPct >= 0.0
    requires SaneSlippage(settings) && BacktestLaws.ValidRow(row)
    requires TriggeredExit(t.positions[id], row).Some?
    requires x.price == ApplySlippage(TriggeredExit(t.positions[id], row).value.0, ExitSide(t.positions[id].side),
                                      settings.defaultSlippageBps)
    ensures KeepsMaintenance(settings, t.positions[id], Max(mmr, settings.defaultMaintenanceMarginPct),
                             RecordExit(t, id, x, orderId).trades[|t.trades|])
  {
    hide Booked, AllBooked, Balanced, ExitTrade, ExitedPosition, TriggeredExit, ApplySlippage, Max, SaneSlippage, KeepsMaintenance,
         BacktestLaws.OnSolventSide, BacktestLaws.ValidRow, CoversMaintenance, EstimateLiquidationPrice, StopPrice,
         TakeProfitPrice, Notional, EntryFees, EntryQuantity;
    var p := t.positions[id];
    BookedAt(t.trades, t.positions, id);
    BookedMargin(t.trades, id, p);
    TriggeredExitIsSolvent(settings, p, row, stop, profit, mmr);
    SolventSaleKeepsMaintenance(settings, p, x, TriggeredExit(p, row).value.0, mmr, EntryFees(t.trades, id),
                                EntryQuantity(t.trades, id), orderId, id);
  }

  // ---------- What every operation keeps ----------

  /** The same stored prices, for the same entry. */
  ghost predicate SameStored(a: PositionRow, b: PositionRow) {
    && a.key == b.key && a.side == b.side && a.leverage == b.leverage && a.avgEntryPrice == b.avgEntryPrice
    && a.stopLossPrice == b.stopLossPrice && a.takeProfitPrice == b.takeProfitPrice && a.liquidationPrice == b.liquidationPrice
  }

  ghost predicate AllMargined(settings: Settings, positions: seq<PositionRow>) {
    forall i :: 0 <= i < |positions| ==> Margined(settings, positions[i])
  }

  lemma StoredStaysMargined(settings: Settings, a: PositionRow, b: PositionRow)
    requires SameStored(a, b) && Margined(settings, a)
    ensures Margined(settings, b)
  {
    hide StopPrice, TakeProfitPrice, EstimateLiquidationPrice, CoversMaintenance;
    if b.key.itype == Perpetual {
      var stop, profit, mmr :|
        StoredWith(settings, a, stop, profit, mmr) && profit >= 0.0 && CoversMaintenance(settings, a.leverage, mmr);
      assert StoredWith(settings, b, stop, profit, mmr);
    }
  }

  /** Rows that keep what was stored stay margined, as does a row that is added. */
  lemma RowsStayMargined(settings: Settings, a: seq<PositionRow>, b: seq<PositionRow>)
    requires AllMargined(settings, a) && |a| <= |b|
    requires forall i :: 0 <= i < |a| ==> SameStored(a[i], b[i])
    requires forall i :: |a| <= i < |b| ==> Margined(settings, b[i])
    ensures AllMargined(settings, b)
  {
    hide Margined, SameStored;
    forall i | 0 <= i < |b|
      ensures Margined(settings, b[i])
    {
      if i < |a| {
        StoredStaysMargined(settings, a[i], b[i]);
      }
    }
  }

  lemma MarksAreNotStored(a: seq<PositionRow>, b: seq<PositionRow>)
    requires Remarked(a, b)
    ensures forall i :: 0 <= i < |a| ==> SameStored(a[i], b[i])
  {
    forall i | 0 <= i < |a|
      ensures SameStored(a[i], b[i])
    {
      assert Unmarked(a[i]) == Unmarked(b[i]);
    }
  }

  ghost predicate KeepsStored(settings: Settings, positions: seq<PositionRow>, change: Change) {
    match change
    case NoChange => true
    case Opened(row) => Margined(settings, row)
    case Reduced(id, row, _) => id < |positions| ==> SameStored(positions[id], row)
  }

  lemma ChangeStaysMargined(settings: Settings, positions: seq<PositionRow>, change: Change, after: seq<PositionRow>)
    requires AllMargined(settings, positions) && KeepsStored(settings, positions, change)
    requires Remarked(Changed(positions, change), after)
    ensures AllMargined(settings, after)
  {
    hide Margined;
    RowsStayMargined(settings, positions, Changed(positions, change));
    MarksAreNotStored(Changed(positions, change), after);
    RowsStayMargined(settings, Changed(positions, change), after);
  }

  /** The margin at the highest leverage covers the maintenance margin of the instrument. */
  ghost predicate MarginEnv(settings: Settings, env: Env) {
    env.instrument.Some? ==> CoversMaintenance(settings, settings.maxLeverage, env.instrument.value.maintenanceMarginRate)
  }

  lemma LowerLeverageCovers(settings: Settings, leverage: real, highest: real, mmr: real)
    requires CoversMaintenance(settings, highest, mmr) && leverage <= highest
    ensures CoversMaintenance(settings, leverage, mmr)
  {
    var l, h := Max(leverage, 1.0), Max(highest, 1.0);
    var i, j := 1.0 / l, 1.0 / h;
    assert i * l == 1.0 && j * h == 1.0 && 1.0 <= l <= h;
    assert j > 0.0;
    NonNegativeProduct(j, h - l);
    assert (i - j) * l >= 0.0;
  }

  lemma NormalizedLeverage(settings: Settings, known: Option<Instrument>, quantity: real, limitPrice: Option<real>,
                           referencePrice: real, leverage: real)
    ensures var normalized := NormalizeOrder(settings, known, quantity, limitPrice, referencePrice, leverage);
            normalized.Success? ==> known.Some? && normalized.value.leverage <= settings.maxLeverage
  {
    hide NormalizeQuantity, NormalizePrice;
  }

  /** A perpetual entry fill is margined. */
  lemma FilledEntryIsMargined(settings: Settings, a: EntryArgs, env: Env, order: NormalizedOrder, report: Report, at: int)
    requires MarginEnv(settings, env) && env.instrument.Some? && TakeProfitPct(a) >= 0.0
    requires order.leverage <= settings.maxLeverage && report.fillPrice.Some?
    ensures Margined(settings, EnteredPosition(EntryFillOf(settings, a, env, order, report, at)))
  {
    var p, mmr := EnteredPosition(EntryFillOf(settings, a, env, order, report, at)), env.instrument.value.maintenanceMarginRate;
    LowerLeverageCovers(settings, order.leverage, settings.maxLeverage, mmr);
    hide StopPrice, TakeProfitPrice, EstimateLiquidationPrice, CoversMaintenance, StopLossPct, TakeProfitPct;
    if p.key.itype == Perpetual {
      assert StoredWith(settings, p, StopLossPct(a), TakeProfitPct(a), mmr);
    }
  }

  lemma EntryStaysMargined(settings: Settings, w: World, a: EntryArgs, env: Env, at: int)
    requires MarginEnv(settings, env) && TakeProfitPct(a) >= 0.0
    ensures KeepsStored(settings, w.tables.positions, EntryChange(settings, w, a, env, at))
  {
    var (marked, prepared) := PrepareEntry(settings, w.tables, a, env);
    NormalizedLeverage(settings, env.instrument, RequestedQuantity(settings, a, marked.portfolio.lastEquity), a.limitPrice,
                       a.referencePrice, SelectedLeverage(settings, a));
    hide NormalizeOrder, RequestedQuantity, Recalculate, Margined, MarginEnv, EvaluateEntry, Answer, TakeProfitPct, ProposalOf,
         EntryRequest, EnteredPosition, EntryFillOf, FindOpen;
    var report := EntryReport(settings, w, a, env, at);
    if report.Some? && IsFill(report.value.1) {
      FilledEntryIsMargined(settings, a, env, report.value.0, report.value.1, at);
    }
  }

  lemma CloseStaysMargined(settings: Settings, w: World, id: nat, c: CloseArgs, env: Env, at: int)
    requires id < |w.tables.positions|
    ensures KeepsStored(settings, w.tables.positions, CloseChange(settings, w, id, c, env, at))
  {
    hide CloseReport, ExitRealized, CollateralRelease, FundingAlloc, RemainingQuantity, Margined;
  }

  lemma EvaluationStaysMargined(settings: Settings, w: World, call: Call, at: int)
    requires MarginEnv(settings, call.env) && call.params.takeProfitPct >= 0.0
    ensures KeepsStored(settings, w.tables.positions, EvaluationChange(settings, w, call, at))
  {
    hide EntryChange, CloseChange, Margined, MarginEnv, CoolingDown, TriggeredExit, Recalculate;
    if call.frame != [] && SelectedSignalRow(settings, call).Some? {
      var row, open := SelectedSignalRow(settings, call).value, FindOpen(w.tables.positions, KeyOf(call));
      if open.Some? {
        var marked := MarkAtLatest(w, call);
        RecalculationRemarks(w.tables, map[call.symbol := call.frame[|call.frame| - 1].close]);
        MarksAreNotStored(w.tables.positions, marked.tables.positions);
        var exit := TriggeredExit(marked.tables.positions[open.value], row);
        if exit.Some? {
          CloseStaysMargined(settings, marked, open.value, MarketClose(exit.value.0, exit.value.1), call.env, at);
        }
      } else {
        EntryStaysMargined(settings, w, StrategyEntry(settings, call, row), call.env, at);
      }
    }
  }

  // ---------- Runs ----------

  /** Take-profits that are not negative, in markets whose maintenance margin is covered. */
  ghost predicate MarginAction(settings: Settings, action: Action) {
    match action
    case EvaluateCall(call, _) => MarginEnv(settings, call.env) && call.params.takeProfitPct >= 0.0
    case SubmitOther(args, env, _) => MarginEnv(settings, env) && TakeProfitPct(args) >= 0.0
    case _ => true
  }

  lemma ActionStaysMargined(settings: Settings, w: World, action: Action)
    requires AllMargined(settings, w.tables.positions) && MarginAction(settings, action)
    ensures AllMargined(settings, Apply(settings, w, action).tables.positions)
  {
    hide Evaluate, SubmitEntry, ClosePosition, EvaluationChange, EntryChange, CloseChange, KeepsStored, AllMargined, MarginEnv;
    var before, after := w.tables.positions, Apply(settings, w, action).tables.positions;
    match action
    case EvaluateCall(call, at) =>
      EvaluationStaysMargined(settings, w, call, at);
      EvaluationEvolves(settings, w, call, at);
      ChangeStaysMargined(settings, before, EvaluationChange(settings, w, call, at), after);
    case SubmitOther(args, env, at) =>
      EntryStaysMargined(settings, w, args, env, at);
      EntryEvolves(settings, w, args, env, at);
      ChangeStaysMargined(settings, before, EntryChange(settings, w, args, env, at), after);
    case CloseById(id, reference, env, at) =>
      if id < |before| {
        var c := MarketClose(ManualReference(before[id], reference), ManualExit);
        CloseStaysMargined(settings, w, id, c, env, at);
        CloseEvolves(settings, w, id, c, env, at);
        ChangeStaysMargined(settings, before, CloseChange(settings, w, id, c, env, at), after);
      }
    case CancelById(orderId, _) =>
    case ChargeFunding(id, cost, at) => RowsStayMargined(settings, before, after);
    case RepriceTo(prices, _) =>
      RecalculationRemarks(w.tables, prices);
      MarksAreNotStored(before, after);
      RowsStayMargined(settings, before, after);
  }

  ghost predicate MarginRun(settings: Settings, actions: seq<Action>) {
    forall i :: 0 <= i < |actions| ==> MarginAction(settings, actions[i])
  }

  /** Every perpetual position of a run keeps the prices that its entry stored. */
  lemma {:induction false} EveryRunIsMargined(settings: Settings, actions: seq<Action>)
    requires MarginRun(settings, actions)
    ensures AllMargined(settings, Run(settings, actions).tables.positions)
  {
    hide Apply, Margined, MarginAction;
    if actions != [] {
      var n := |actions| - 1;
      EveryRunIsMargined(settings, actions[..n]);
      ActionStaysMargined(settings, Run(settings, actions[..n]), actions[n]);
    }
  }

  /** A call in a perpetual market without a book, on bars of sound prices. */
  ghost predicate CandleCall(call: Call) {
    call.itype == Perpetual && call.env.book == None && forall row :: row in call.frame ==> BacktestLaws.ValidRow(row)
  }

  /** A market close without a book that goes through books one exit at the slipped reference price. */
  lemma CandleCloseSells(settings: Settings, w: World, id: nat, raw: real, reason: ExitReason, env: Env, at: int) returns (x: ExitFill)
    requires id < |w.tables.positions| && env.book == None
    requires ClosePosition(settings, w, id, MarketClose(raw, reason), env, at).1.Success?
    ensures x.filled > 0.0 && w.tables.positions[id].status == Open
    ensures x.price == ApplySlippage(raw, ExitSide(w.tables.positions[id].side), settings.defaultSlippageBps)
    ensures ClosePosition(settings, w, id, MarketClose(raw, reason), env, at).0.tables.trades
            == RecordExit(w.tables, id, x, |w.tables.orders|).trades
  {
    hide NormalizeQuantity, NormalizePrice, ApplySlippage, Fees.CalculateFee, ExitTrade, ExitedPosition, RepriceAll, Totals,
         EntryFees, EntryQuantity;
    var p, c := w.tables.positions[id], MarketClose(raw, reason);
    var order := NormalizeOrder(settings, env.instrument, p.quantity, None, raw, p.leverage).value;
    assert order.quantity > 0.0;
    hide NormalizeOrder;
    var report := Place(FeesOf(settings), w.exchange, CloseRequest(settings, p, c, env, order)).1;
    assert IsFill(report);
    x := ExitFillOf(c, report, at);
  }

  /** An exit that an evaluation makes is one that the marked row triggers, and is closed at market. */
  lemma ExitIsTriggered(settings: Settings, w: World, call: Call, at: int)
    requires Evaluate(settings, w, call, at).1.Exited?
    ensures call.frame != [] && SelectedSignalRow(settings, call).Some? && FindOpen(w.tables.positions, KeyOf(call)).Some?
    ensures var marked, row := MarkAtLatest(w, call), SelectedSignalRow(settings, call).value;
            var id := FindOpen(w.tables.positions, KeyOf(call)).value;
            && id < |marked.tables.positions| && row in call.frame && marked.tables.trades == w.tables.trades
            && TriggeredExit(marked.tables.positions[id], row).Some?
            && var (raw, reason) := TriggeredExit(marked.tables.positions[id], row).value;
               && ClosePosition(settings, marked, id, MarketClose(raw, reason), call.env, at).1.Success?
               && ClosePosition(settings, marked, id, MarketClose(raw, reason), call.env, at).0
                  == Evaluate(settings, w, call, at).0
  {
    hide ClosePosition, TriggeredExit, BarAlreadyProcessed, FindOpen, SubmitEntry, CoolingDown, Totals;
  }

  /** A floor for a larger maintenance rate is one for a smaller rate. */
  lemma SmallerRateIsKept(settings: Settings, p: PositionRow, higher: real, lower: real, sold: TradeRow)
    requires p.liquidationPrice.Some? && KeepsMaintenance(settings, p, higher, sold)
    requires higher >= lower && p.avgEntryPrice >= 0.0 && sold.quantity >= 0.0
    ensures KeepsMaintenance(settings, p, lower, sold)
  {
    NonNegativeProduct(p.avgEntryPrice, sold.quantity);
    var notional := Notional(p.avgEntryPrice, sold.quantity);
    hide Notional;
    NonNegativeProduct(higher - lower, notional);
    assert higher * notional == lower * notional + (higher - lower) * notional;
  }

  /** The trade of an exit from sound tables keeps the default maintenance margin. */
  lemma MarginedExitKeepsMaintenance(settings: Settings, t: Tables, id: nat, row: SignalRow, x: ExitFill, orderId: nat)
    requires Books(t) && CanExit(t, id, x) && t.positions[id].key.itype == Perpetual && t.positions[id].avgEntryPrice > 0.0
    requires Margined(settings, t.positions[id]) && settings.defaultMaintenanceMarginPct >= 0.0
    requires SaneSlippage(settings) && BacktestLaws.ValidRow(row) && TriggeredExit(t.positions[id], row).Some?
    requires x.price == ApplySlippage(TriggeredExit(t.positions[id], row).value.0, ExitSide(t.positions[id].side),
                                      settings.defaultSlippageBps)
    ensures t.positions[id].liquidationPrice.Some?
    ensures KeepsMaintenance(settings, t.positions[id], settings.defaultMaintenanceMarginPct,
                             RecordExit(t, id, x, orderId).trades[|t.trades|])
  {
    hide Booked, AllBooked, Balanced, ExitedPosition, TriggeredExit, ApplySlippage, SaneSlippage, KeepsMaintenance,
         BacktestLaws.ValidRow, CoversMaintenance, EstimateLiquidationPrice, StopPrice, TakeProfitPrice, EntryFees, EntryQuantity,
         CloseQuantity, PnlOn, ProRata, Notional;
    var p := t.positions[id];
    var stop, profit, mmr :|
      StoredWith(settings, p, stop, profit, mmr) && profit >= 0.0 && CoversMaintenance(settings, p.leverage, mmr);
    ExitKeepsMaintenance(settings, t, id, row, x, orderId, stop, profit, mmr);
    BookedAt(t.trades, t.positions, id);
    BookedMargin(t.trades, id, p);
    ClosesPart(p, x);
    SmallerRateIsKept(settings, p, Max(mmr, settings.defaultMaintenanceMarginPct), settings.defaultMaintenanceMarginPct,
                      RecordExit(t, id, x, orderId).trades[|t.trades|]);
  }

  /** In every state of a run, whatever makes an evaluation exit a perpetual position, a candle fill leaves
      the maintenance margin of what it closes, less its slippage. */
  lemma EveryExitKeepsMaintenance(settings: Settings, actions: seq<Action>, call: Call, at: int)
    requires SaneRun(settings, actions) && MarginRun(settings, actions)
    requires SaneSlippage(settings) && settings.defaultMaintenanceMarginPct >= 0.0 && CandleCall(call)
    ensures var before, (after, outcome) := Run(settings, actions).tables, Evaluate(settings, Run(settings, actions), call, at);
            var open := FindOpen(before.positions, KeyOf(call));
            outcome.Exited? ==>
              && open.Some? && |after.tables.trades| == |before.trades| + 1
              && var p := before.positions[open.value];
                 p.avgEntryPrice > 0.0 ==>
                   && p.liquidationPrice.Some?
                   && KeepsMaintenance(settings, p, settings.defaultMaintenanceMarginPct, after.tables.trades[|before.trades|])
  {
    hide Run, Evaluate, ClosePosition, TriggeredExit, Recalculate, Books, Margined, ApplySlippage, SaneSlippage, SaneRun, MarginRun,
         BacktestLaws.ValidRow, SelectedSignalRow, FindOpen;
    var w := Run(settings, actions);
    if Evaluate(settings, w, call, at).1.Exited? {
      ExitIsTriggered(settings, w, call, at);
      var marked, row := MarkAtLatest(w, call), SelectedSignalRow(settings, call).value;
      var id := FindOpen(w.tables.positions, KeyOf(call)).value;
      var (raw, reason) := TriggeredExit(marked.tables.positions[id], row).value;
      var prices := map[call.symbol := call.frame[|call.frame| - 1].close];
      EveryRunKeepsBooks(settings, actions);
      EveryRunIsMargined(settings, actions);
      RepricingKeepsBooks(w.tables, prices);
      RecalculationRemarks(w.tables, prices);
      MarksAreNotStored(w.tables.positions, marked.tables.positions);
      StoredStaysMargined(settings, w.tables.positions[id], marked.tables.positions[id]);
      var x := CandleCloseSells(settings, marked, id, raw, reason, call.env, at);
      if w.tables.positions[id].avgEntryPrice > 0.0 {
        MarginedExitKeepsMaintenance(settings, marked.tables, id, row, x, |marked.tables.orders|);
      }
    }
  }
}
