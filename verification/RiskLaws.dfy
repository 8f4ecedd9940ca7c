/** What the risk approval of an entry still promises after the fill. */
module RiskLaws {
  import opened Common
  import opened Config
  import opened Fees
  import opened Ledger
  import opened PaperExchange
  import opened Instruments
  import opened Precision
  import opened Risk
  import opened Execution
  import opened Evolution

  // ---------- Marks of the other positions ----------

  ghost predicate NoOpenIn(positions: seq<PositionRow>, symbol: string) {
    forall i :: 0 <= i < |positions| && positions[i].status == Open ==> positions[i].key.symbol != symbol
  }

  /** A row that a recalculation without a price for it leaves alone. */
  ghost predicate Settled(p: PositionRow) {
    p.status == Open ==>
      && (p.currentPrice == 0.0 ==> p.avgEntryPrice == 0.0)
      && p.unrealizedPnl == UnrealizedAt(p, p.currentPrice)
  }

  lemma MarksSettle(p: PositionRow, prices: map<string, real>)
    requires p.status == Open ==> p.key.symbol !in prices
    ensures Settled(Reprice(p, prices))
    ensures Settled(p) ==> Reprice(p, prices) == p
  {
  }

  ghost predicate AllSettled(positions: seq<PositionRow>) {
    forall i :: 0 <= i < |positions| ==> Settled(positions[i])
  }

  /** Marking one symbol settles every position, if none is open in that symbol; and once they are
      settled, marking that symbol again changes none of them. */
  lemma RecalculationSettles(t: Tables, symbol: string, price: real)
    requires NoOpenIn(t.positions, symbol)
    ensures var after := Recalculate(t, map[symbol := price]);
            && AllSettled(after.positions) && NoOpenIn(after.positions, symbol)
            && (AllSettled(t.positions) ==> after.positions == t.positions)
  {
    hide UnrealizedAt;
    var prices := map[symbol := price];
    var after := RepriceAll(t.positions, prices);
    forall i | 0 <= i < |t.positions|
      ensures Settled(after[i]) && (Settled(t.positions[i]) ==> after[i] == t.positions[i])
    {
      MarksSettle(t.positions[i], prices);
    }
    if AllSettled(t.positions) {
      assert after == t.positions;
    }
  }

  // ---------- The portfolio after a fill ----------

  /** What an entered position contributes while it is marked at its entry price. */
  lemma EnteredRow(e: EntryFill, orderId: nat, id: nat, notional: real)
    requires notional == e.quantity * e.price
    requires e.key.itype == Spot ==> e.side == Long
    ensures var p, x := EnteredPosition(e), EntryTrade(e, orderId, id);
            && OpenGross(p) == Abs(notional)
            && OpenNet(p) == Direction(e.side) * notional
            && LongExposure(p) == (if e.side == Short then 0.0 else Abs(notional))
            && ShortExposure(p) == (if e.side == Short then Abs(notional) else 0.0)
            && x.cashFlow == EntryCashFlow(e.key.itype, e.side, notional, e.fee, EntryCollateral(e))
            && EquityContribution(p) + x.cashFlow == -e.fee
  {
    hide EntryCollateral, StopPrice, TakeProfitPrice;
    assert e.price * e.quantity == notional;
  }

  /** What one more position adds to the portfolio when it is marked at its entry price. */
  lemma EntryTotals(t: Tables, e: EntryFill, orderId: nat, notional: real)
    requires t.portfolio == Totals(t).(peakEquity := t.portfolio.peakEquity)
    requires AllSettled(t.positions) && NoOpenIn(t.positions, e.key.symbol)
    requires e.key.itype == Spot ==> e.side == Long
    requires notional == e.quantity * e.price
    ensures var after := Recalculate(RecordEntry(t, e, orderId), map[e.key.symbol := e.price]);
            && after.positions == t.positions + [EnteredPosition(e)]
            && after.portfolio.lastEquity == t.portfolio.lastEquity - e.fee
            && after.portfolio.grossExposure == t.portfolio.grossExposure + Abs(notional)
            && after.portfolio.netExposure == t.portfolio.netExposure + Direction(e.side) * notional
            && after.portfolio.cashBalance ==
               t.portfolio.cashBalance + EntryCashFlow(e.key.itype, e.side, notional, e.fee, EntryCollateral(e))
            && SumBy(after.positions, LongExposure) ==
               SumBy(t.positions, LongExposure) + (if e.side == Short then 0.0 else Abs(notional))
            && SumBy(after.positions, ShortExposure) ==
               SumBy(t.positions, ShortExposure) + (if e.side == Short then Abs(notional) else 0.0)
  {
    var p, x := EnteredPosition(e), EntryTrade(e, orderId, |t.positions|);
    EntryRows(t, e, orderId);
    EnteredRow(e, orderId, |t.positions|, notional);
    hide EnteredPosition, EntryTrade, EntryCollateral, RepriceAll, EquityContribution, OpenGross, OpenNet,
         LongExposure, ShortExposure, EntryCashFlow;
    SumByAppend(t.trades, x, CashFlowOf);
    SumByAppend(t.positions, p, EquityContribution);
    SumByAppend(t.positions, p, OpenGross);
    SumByAppend(t.positions, p, OpenNet);
    SumByAppend(t.positions, p, LongExposure);
    SumByAppend(t.positions, p, ShortExposure);
  }

  lemma EntryRows(t: Tables, e: EntryFill, orderId: nat)
    requires AllSettled(t.positions) && NoOpenIn(t.positions, e.key.symbol)
    ensures Recalculate(RecordEntry(t, e, orderId), map[e.key.symbol := e.price]).positions == t.positions + [EnteredPosition(e)]
  {
    hide Totals, EntryTrade, EntryCollateral, StopPrice, TakeProfitPrice, UnrealizedAt;
    var prices := map[e.key.symbol := e.price];
    RecalculationSettles(t, e.key.symbol, e.price);
    assert Reprice(EnteredPosition(e), prices) == EnteredPosition(e) by {
      AtEntryPrice(EnteredPosition(e));
    }
    var all := t.positions + [EnteredPosition(e)];
    forall i | 0 <= i < |all|
      ensures Reprice(all[i], prices) == all[i]
    {
      if i < |t.positions| {
        MarksSettle(t.positions[i], prices);
      }
    }
    assert RepriceAll(all, prices) == all;
  }

  lemma AtEntryPrice(p: PositionRow)
    ensures UnrealizedAt(p, p.avgEntryPrice) == 0.0
  {
  }

  // ---------- The caps ----------

  /** The exposure is at most `cap` times the equity, give or take `slack`. */
  ghost predicate Within(exposure: real, cap: real, equity: real, slack: real) {
    exposure <= cap * equity + slack
  }

  lemma RatioIsWithin(exposure: real, equity: real, cap: real)
    requires equity > 0.0 && Ratio(exposure, equity) <= cap
    ensures Within(exposure, cap, equity, 0.0)
  {
    var q := exposure / equity;
    assert q * equity == exposure;
    assert (cap - q) * equity >= 0.0;
  }

  lemma WithinWidens(exposure: real, wider: real, cap: real, equity: real, slack: real)
    requires Within(exposure, cap, equity, 0.0) && wider <= exposure + slack
    ensures Within(wider, cap, equity, slack)
  {
  }

  /** The exposures of an approved proposal are within their caps. */
  ghost predicate Capped(settings: Settings, t: Tables, side: PositionSide, notional: real, slack: real) {
    && Within(ProposedGross(t, notional), settings.maxGrossExposurePct, t.portfolio.lastEquity, slack)
    && Within(ProposedNet(t, side, notional), settings.maxNetExposurePct, t.portfolio.lastEquity, slack)
    && Within(ProposedSide(t, side, notional), settings.maxSideExposurePct, t.portfolio.lastEquity, slack)
  }

  lemma ApprovedExposures(settings: Settings, t: Tables, e: Proposal)
    requires t.portfolio.lastEquity > 0.0
    requires ExposureChecks(settings, t, e) == None
    ensures Capped(settings, t, e.side, NotionalOf(e), 0.0)
  {
    hide Within, ProposedGross, ProposedNet, ProposedSide;
    var equity, notional := t.portfolio.lastEquity, NotionalOf(e);
    RatioIsWithin(ProposedGross(t, notional), equity, settings.maxGrossExposurePct);
    RatioIsWithin(ProposedNet(t, e.side, notional), equity, settings.maxNetExposurePct);
    RatioIsWithin(ProposedSide(t, e.side, notional), equity, settings.maxSideExposurePct);
  }

  /** A fill that deviates by `slack` from an approved notional is within the caps up to that slack. */
  lemma CapsWiden(settings: Settings, t: Tables, side: PositionSide, notional: real, filled: real, slack: real)
    requires Capped(settings, t, side, notional, 0.0) && Abs(filled - notional) <= slack
    ensures Capped(settings, t, side, filled, slack)
  {
    ProposalWidens(t, side, notional, filled, slack);
    hide Within, ProposedGross, ProposedNet, ProposedSide;
    var equity := t.portfolio.lastEquity;
    WithinWidens(ProposedGross(t, notional), ProposedGross(t, filled), settings.maxGrossExposurePct, equity, slack);
    WithinWidens(ProposedNet(t, side, notional), ProposedNet(t, side, filled), settings.maxNetExposurePct, equity, slack);
    WithinWidens(ProposedSide(t, side, notional), ProposedSide(t, side, filled), settings.maxSideExposurePct, equity, slack);
  }

  lemma ProposalWidens(t: Tables, side: PositionSide, notional: real, filled: real, slack: real)
    requires Abs(filled - notional) <= slack
    ensures ProposedGross(t, filled) <= ProposedGross(t, notional) + slack
    ensures ProposedNet(t, side, filled) <= ProposedNet(t, side, notional) + slack
    ensures ProposedSide(t, side, filled) <= ProposedSide(t, side, notional) + slack
  {
    hide SideExposure;
  }

  /** What else an approved proposal satisfies. */
  ghost predicate Affordable(settings: Settings, t: Tables, e: Proposal) {
    && t.portfolio.lastEquity > 0.0 && e.price > 0.0 && e.quantity > 0.0
    && (e.itype == Perpetual ==> NotionalOf(e) / Max(e.leverage, 1.0) <= t.portfolio.cashBalance)
    && (e.itype == Spot ==> NotionalOf(e) <= t.portfolio.cashBalance && e.side == Long)
    && (e.itype == Perpetual && e.liquidationPrice.Some? ==>
          Abs(e.price - e.liquidationPrice.value) / e.price >= settings.minLiquidationBufferPct)
  }

  lemma ApprovedTrade(settings: Settings, t: Tables, e: Proposal, now: int)
    requires Decide(settings, t, e, now) == Approved
    ensures Affordable(settings, t, e) && Capped(settings, t, e.side, NotionalOf(e), 0.0)
  {
    hide DailyRealizedPnl, SymbolBlocked, CountOpen, InSession, Drawdown, Capped, ProposedGross, ProposedNet, ProposedSide;
    ApprovedExposures(settings, t, e);
  }

  /** The notional of a slipped fill, against the notional that was approved. */
  lemma SlippedNotional(price: real, quantity: real, side: OrderSide, slippageBps: real)
    requires price > 0.0 && quantity > 0.0 && 0.0 <= BpsToFraction(slippageBps) < 1.0
    ensures var filled := quantity * ApplySlippage(price, side, slippageBps);
            var slack := BpsToFraction(slippageBps) * (quantity * price);
            && ApplySlippage(price, side, slippageBps) > 0.0
            && filled > 0.0 && quantity * price > 0.0
            && Abs(filled - quantity * price) <= slack
            && slack >= 0.0
  {
    var f, n := BpsToFraction(slippageBps), quantity * price;
    PositiveProduct(quantity, price);
    assert f * n >= 0.0;
    assert price * (1.0 - f) > 0.0;
    assert price * (1.0 + f) > 0.0;
    assert quantity * (price * (1.0 + f)) == n + f * n;
    assert quantity * (price * (1.0 - f)) == n - f * n;
    PositiveProduct(quantity, price * (1.0 - f));
    PositiveProduct(quantity, price * (1.0 + f));
  }

  lemma PositiveProduct(a: real, b: real)
    requires a > 0.0 && b > 0.0
    ensures a * b > 0.0
  {
  }

  function Margin(notional: real, leverage: real): real {
    notional / Max(leverage, 1.0)
  }

  lemma MarginAtMost(filled: real, notional: real, slack: real, leverage: real)
    requires filled <= notional + slack
    ensures Margin(filled, leverage) <= Margin(notional, leverage) + Margin(slack, leverage)
  {
    var l := Max(leverage, 1.0);
    var a, b, c := filled / l, notional / l, slack / l;
    assert a * l == filled && b * l == notional && c * l == slack;
    assert (b + c - a) * l >= 0.0;
  }

  // ---------- From approval to fill ----------

  /** The order of an entry that was approved, and the tables that it was approved on. */
  ghost predicate ApprovedEntry(settings: Settings, w: World, a: EntryArgs, env: Env, at: int, order: NormalizedOrder, checked: Tables) {
    && PrepareEntry(settings, w.tables, a, env).1 == Success(order)
    && EvaluateEntry(settings, PrepareEntry(settings, w.tables, a, env).0, ProposalOf(settings, a, env, order), at) == (checked, Approved)
  }

  /** The slippage on a notional. */
  function Slack(settings: Settings, quantity: real, price: real): real {
    BpsToFraction(settings.defaultSlippageBps) * (quantity * price)
  }

  /** A market order that is filled completely at the slipped reference price. */
  ghost predicate CandleFill(settings: Settings, a: EntryArgs, order: NormalizedOrder, report: Report) {
    && report.filledQuantity == order.quantity
    && report.fillPrice == Some(ApplySlippage(a.referencePrice, EntrySide(a.side), settings.defaultSlippageBps))
  }

  lemma CheckedTablesAreSettled(settings: Settings, w: World, a: EntryArgs, env: Env, at: int, order: NormalizedOrder, checked: Tables)
    requires ApprovedEntry(settings, w, a, env, at, order, checked)
    requires NoOpenIn(w.tables.positions, a.key.symbol)
    ensures AllSettled(checked.positions) && NoOpenIn(checked.positions, a.key.symbol)
    ensures checked.portfolio == Totals(checked).(peakEquity := checked.portfolio.peakEquity)
  {
    hide Decide, NormalizeOrder, RequestedQuantity, UnrealizedAt, LiquidationOf;
    var marked := PrepareEntry(settings, w.tables, a, env).0;
    RecalculationSettles(w.tables, a.key.symbol, a.referencePrice);
    RecalculationSettles(marked, a.key.symbol, EntryPriceOf(a, order));
  }

  /** A fill whose notional is within `slack` of what was approved for the tables `t`. */
  ghost predicate NearApproved(settings: Settings, t: Tables, e: Proposal, fill: EntryFill, filled: real, slack: real) {
    && t.portfolio == Totals(t).(peakEquity := t.portfolio.peakEquity)
    && AllSettled(t.positions) && NoOpenIn(t.positions, fill.key.symbol)
    && Affordable(settings, t, e) && Capped(settings, t, e.side, NotionalOf(e), 0.0)
    && fill.key.itype == e.itype && fill.side == e.side && fill.leverage == e.leverage
    && filled == fill.quantity * fill.price
    && NotionalOf(e) > 0.0 && filled > 0.0 && slack >= 0.0 && Abs(filled - NotionalOf(e)) <= slack
  }

  function Filled(t: Tables, fill: EntryFill, orderId: nat): Tables {
    Recalculate(RecordEntry(t, fill, orderId), map[fill.key.symbol := fill.price])
  }

  /** The exposures and the cash after a fill: equity is what it was less the fee, the exposures are
      within their caps of it up to the slack, and the cash covers all but the fee and the slack. */
  ghost predicate Carried(settings: Settings, before: Tables, after: Tables, e: Proposal, fee: real, slack: real) {
    var equity := before.portfolio.lastEquity;
    && after.portfolio.lastEquity == equity - fee
    && Within(after.portfolio.grossExposure, settings.maxGrossExposurePct, equity, slack)
    && Within(Abs(after.portfolio.netExposure), settings.maxNetExposurePct, equity, slack)
    && Within(SideExposure(after.positions, e.side), settings.maxSideExposurePct, equity, slack)
    && (e.itype == Perpetual ==> after.portfolio.cashBalance >= -(fee + Margin(slack, e.leverage)))
    && (e.itype == Spot ==> after.portfolio.cashBalance >= -(fee + slack))
  }

  /** After the fill the portfolio is exposed to exactly what a proposal of its notional proposes. */
  lemma FilledExposures(t: Tables, fill: EntryFill, orderId: nat, filled: real)
    requires t.portfolio == Totals(t).(peakEquity := t.portfolio.peakEquity)
    requires AllSettled(t.positions) && NoOpenIn(t.positions, fill.key.symbol)
    requires fill.key.itype == Spot ==> fill.side == Long
    requires filled == fill.quantity * fill.price
    ensures var after := Filled(t, fill, orderId);
            && after.portfolio.lastEquity == t.portfolio.lastEquity - fill.fee
            && after.portfolio.grossExposure == ProposedGross(t, filled)
            && Abs(after.portfolio.netExposure) == ProposedNet(t, fill.side, filled)
            && SideExposure(after.positions, fill.side) == ProposedSide(t, fill.side, filled)
  {
    hide Totals, RecordEntry, Recalculate, SumBy, AllSettled, NoOpenIn, EntryCashFlow, EntryCollateral, EnteredPosition;
    EntryTotals(t, fill, orderId, filled);
  }

  lemma FillIsCarried(settings: Settings, t: Tables, e: Proposal, fill: EntryFill, orderId: nat, filled: real, slack: real)
    requires NearApproved(settings, t, e, fill, filled, slack)
    ensures Carried(settings, t, Filled(t, fill, orderId), e, fill.fee, slack)
  {
    CapsWiden(settings, t, e.side, NotionalOf(e), filled, slack);
    FilledExposures(t, fill, orderId, filled);
    CashIsCarried(settings, t, e, fill, orderId, filled, slack);
    hide Totals, Filled, NotionalOf, Within, AllSettled, NoOpenIn, Margin, Affordable, SideExposure, Abs,
         ProposedGross, ProposedNet, ProposedSide;
  }

  lemma CashIsCarried(settings: Settings, t: Tables, e: Proposal, fill: EntryFill, orderId: nat, filled: real, slack: real)
    requires NearApproved(settings, t, e, fill, filled, slack)
    ensures var cash := Filled(t, fill, orderId).portfolio.cashBalance;
            && (e.itype == Perpetual ==> cash >= -(fill.fee + Margin(slack, e.leverage)))
            && (e.itype == Spot ==> cash >= -(fill.fee + slack))
  {
    hide Totals, RecordEntry, Recalculate, SumBy, Capped, AllSettled, NoOpenIn, Notional, EnteredPosition;
    EntryTotals(t, fill, orderId, filled);
    hide Totals, RecordEntry, Recalculate, SumBy, Capped, AllSettled, NoOpenIn;
    MarginAtMost(filled, NotionalOf(e), slack, e.leverage);
    MarginOfFill(fill, filled);
    MarginOfNotional(e);
    hide NotionalOf, Margin, EntryCollateral;
  }

  lemma MarginOfFill(fill: EntryFill, filled: real)
    requires filled == fill.quantity * fill.price
    ensures fill.key.itype == Perpetual ==> EntryCollateral(fill) == Margin(filled, fill.leverage)
  {
    assert fill.price * fill.quantity == filled;
  }

  lemma MarginOfNotional(e: Proposal)
    ensures NotionalOf(e) / Max(e.leverage, 1.0) == Margin(NotionalOf(e), e.leverage)
  {
  }

  /** The entry price of a position is at least the configured buffer away from its liquidation price. */
  ghost predicate KeepsBuffer(settings: Settings, p: PositionRow) {
    && p.liquidationPrice.Some? && p.avgEntryPrice > 0.0
    && Abs(p.avgEntryPrice - p.liquidationPrice.value) / p.avgEntryPrice >= settings.minLiquidationBufferPct
  }

  /** For an approved market entry filled at the slipped reference price, in a symbol without another
      open position: the exposures after the fill are within their caps of the equity before the fee,
      up to the slippage on the notional; the cash covers all but fee and slippage; and the distance
      to liquidation from the actual fill price is at least the configured buffer. */
  lemma ApprovalCarriesToTheFill(settings: Settings, w: World, a: EntryArgs, env: Env, at: int,
                                 order: NormalizedOrder, checked: Tables, report: Report)
    requires ApprovedEntry(settings, w, a, env, at, order, checked)
    requires NoOpenIn(w.tables.positions, a.key.symbol)
    requires a.orderType == Market && a.limitPrice == None
    requires 0.0 <= BpsToFraction(settings.defaultSlippageBps) < 1.0
    requires CandleFill(settings, a, order, report)
    ensures var after := BookEntry(settings, checked, a, env, order, report, at);
            var p := EnteredPosition(EntryFillOf(settings, a, env, order, report, at));
            && after.positions == checked.positions + [p]
            && Carried(settings, checked, after, ProposalOf(settings, a, env, order), report.feePaid,
                       Slack(settings, order.quantity, a.referencePrice))
            && (a.key.itype == Perpetual && env.instrument.Some? ==> KeepsBuffer(settings, p))
  {
    hide ApprovedEntry, Totals, BookEntry, RecordEntry, Recalculate, EnteredPosition, AllSettled,
         NoOpenIn, SideExposure, EstimateLiquidationPrice, Carried, Capped;
    var e := ProposalOf(settings, a, env, order);
    var fill := EntryFillOf(settings, a, env, order, report, at);
    var filled := order.quantity * fill.price;
    var slack := Slack(settings, order.quantity, a.referencePrice);
    CheckedTablesAreSettled(settings, w, a, env, at, order, checked);
    ApprovedIsAffordable(settings, w, a, env, at, order, checked);
    SlippedNotional(a.referencePrice, order.quantity, EntrySide(a.side), settings.defaultSlippageBps);
    BookedFill(settings, checked, a, env, order, report, at);
    EntryRows(checked, fill, |checked.orders|);
    FillIsCarried(settings, checked, e, fill, |checked.orders|, filled, slack);
    CarriedByRows(settings, checked, Filled(checked, fill, |checked.orders|),
                  BookEntry(settings, checked, a, env, order, report, at), e, report.feePaid, slack);
    if a.key.itype == Perpetual && env.instrument.Some? {
      FilledDistance(settings, a, env, order, report, at);
    }
  }

  lemma ApprovedIsAffordable(settings: Settings, w: World, a: EntryArgs, env: Env, at: int, order: NormalizedOrder, checked: Tables)
    requires ApprovedEntry(settings, w, a, env, at, order, checked)
    ensures var e := ProposalOf(settings, a, env, order);
            Affordable(settings, checked, e) && Capped(settings, checked, e.side, NotionalOf(e), 0.0)
    ensures a.limitPrice == None ==> order.limitPrice == None
  {
    hide Decide, Recalculate, LiquidationOf, Affordable, Capped, RequestedQuantity, RoundToIncrement;
    ApprovedTrade(settings, checked, ProposalOf(settings, a, env, order), at);
  }

  lemma CarriedByRows(settings: Settings, before: Tables, after: Tables, same: Tables, e: Proposal, fee: real, slack: real)
    requires Carried(settings, before, after, e, fee, slack)
    requires after.positions == same.positions && after.portfolio == same.portfolio
    ensures Carried(settings, before, same, e, fee, slack)
  {
  }

  /** The fill is as far from its liquidation price as the proposal was from its own. */
  lemma FilledDistance(settings: Settings, a: EntryArgs, env: Env, order: NormalizedOrder, report: Report, at: int)
    requires a.key.itype == Perpetual && env.instrument.Some? && report.fillPrice.Some?
    requires report.fillPrice.value > 0.0 && EntryPriceOf(a, order) > 0.0
    ensures var e := ProposalOf(settings, a, env, order);
            var p := EnteredPosition(EntryFillOf(settings, a, env, order, report, at));
            && e.liquidationPrice.Some? && p.liquidationPrice.Some? && p.avgEntryPrice > 0.0
            && Abs(p.avgEntryPrice - p.liquidationPrice.value) / p.avgEntryPrice ==
               Abs(e.price - e.liquidationPrice.value) / e.price
  {
    LiquidationDistanceIsScaleFree(settings, EntryPriceOf(a, order), report.fillPrice.value, a.side, order.leverage,
                                   env.instrument.value.maintenanceMarginRate);
    hide EstimateLiquidationPrice, EntryCollateral, StopPrice, TakeProfitPrice;
  }

  /** Booking a fill is recording it and marking its symbol at the fill price; orders apart. */
  lemma BookedFill(settings: Settings, t: Tables, a: EntryArgs, env: Env, order: NormalizedOrder, report: Report, at: int)
    requires IsFill(report) && report.fillPrice.value != 0.0
    ensures var booked := BookEntry(settings, t, a, env, order, report, at);
            var fill := EntryFillOf(settings, a, env, order, report, at);
            var plain := Recalculate(RecordEntry(t, fill, |t.orders|), map[a.key.symbol := fill.price]);
            booked.positions == plain.positions && booked.portfolio == plain.portfolio
  {
    hide LiquidationOf, EnteredPosition, EntryTrade, PersistedOrder;
  }

  lemma UnknownInstrumentIsRefused(settings: Settings, w: World, a: EntryArgs, env: Env, at: int)
    ensures SubmitEntry(settings, w, a, env, at).1.Success? ==> env.instrument.Some?
  {
    hide Recalculate, RequestedQuantity, Decide, BookEntry;
  }

  /** A submitted market entry that meets no order book is such a fill, so the bounds hold of the
      tables that submit_entry_order leaves behind. */
  lemma CandleEntryIsCarried(settings: Settings, w: World, a: EntryArgs, env: Env, at: int)
    requires NoOpenIn(w.tables.positions, a.key.symbol)
    requires a.orderType == Market && a.limitPrice == None && env.book == None
    requires SelectedModel(settings, a.model) == CandleModel || a.allowCandleFallback
    requires 0.0 <= BpsToFraction(settings.defaultSlippageBps) < 1.0
    ensures SubmitEntry(settings, w, a, env, at).1.Success? ==>
              && EntryReport(settings, w, a, env, at).Some?
              && var (order, report) := EntryReport(settings, w, a, env, at).value;
                 var (marked, _) := PrepareEntry(settings, w.tables, a, env);
                 var (checked, _) := EvaluateEntry(settings, marked, ProposalOf(settings, a, env, order), at);
                 var after := SubmitEntry(settings, w, a, env, at).0.tables;
                 && CandleFill(settings, a, order, report)
                 && after == BookEntry(settings, checked, a, env, order, report, at)
                 && Carried(settings, checked, after, ProposalOf(settings, a, env, order), report.feePaid,
                            Slack(settings, order.quantity, a.referencePrice))
                 && after.positions != []
                 && (a.key.itype == Perpetual ==> KeepsBuffer(settings, after.positions[|after.positions| - 1]))
  {
    hide Decide, Carried, BookEntry, Recalculate, Slack, NoOpenIn, KeepsBuffer;
    UnknownInstrumentIsRefused(settings, w, a, env, at);
    hide NormalizeOrder;
    if SubmitEntry(settings, w, a, env, at).1.Failure? { return; }
    var (order, report) := EntryReport(settings, w, a, env, at).value;
    var (marked, _) := PrepareEntry(settings, w.tables, a, env);
    var (checked, _) := EvaluateEntry(settings, marked, ProposalOf(settings, a, env, order), at);
    var e := ProposalOf(settings, a, env, order);
    var slack := Slack(settings, order.quantity, a.referencePrice);
    assert ApprovedEntry(settings, w, a, env, at, order, checked);
    assert CandleFill(settings, a, order, report);
    ApprovalCarriesToTheFill(settings, w, a, env, at, order, checked, report);
    var after := SubmitEntry(settings, w, a, env, at).0.tables;
    assert after == BookEntry(settings, checked, a, env, order, report, at);
    assert Carried(settings, checked, after, e, report.feePaid, slack);
  }
}
