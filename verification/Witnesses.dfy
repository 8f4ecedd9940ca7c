/** A market that stands still, in which the runs of FailingRuns and LateLookup are worked out: everything
    trades at 100, without fees or slippage. */
module Witnesses {
  import opened Common
  import opened Config
  import opened Ledger
  import opened PaperExchange
  import opened Instruments
  import opened Risk
  import opened Execution
  import opened Runs

  /** The default limits (app/core/config.py), with a starting balance of 1000 for each slot, no fees or
      slippage, a leverage of one, a session around the clock, and evaluation of the newest bar. */
  function Roomy(slots: int, cooldownMinutes: int, symbols: seq<string>): Settings {
    Settings(1000.0 * slots as real, 0.01, 0.2, slots, 0.03, 0.1, 25.0, 20.0, 0.0, 0.0, 30, cooldownMinutes, 1.0, 5.0,
             2.0, 1.0, 1.5, 0.015, 0.005, 0.005, false, symbols, [0, 1, 2, 3, 4, 5, 6], 0, DAY, CandleModel, false)
  }

  predicate IsRoomy(settings: Settings) {
    && settings.maxConcurrentPositions > 0
    && settings == Roomy(settings.maxConcurrentPositions, settings.strategyExitCooldownMinutes, settings.symbolAllowlist)
  }

  function Balance(settings: Settings): real {
    1000.0 * settings.maxConcurrentPositions as real
  }

  const OPEN_MARKET: Env := Env(Some(Instrument(0.0, 0.0, 0.0, 0.0, 0.0)), None, 0.0, None)

  /** A position of some units, bought at 100. */
  function Fill(key: Key, units: real, at: int): EntryFill {
    EntryFill(key, Long, 100.0, units, 0.0, 1.0, 0.1, 0.1, if key.itype == Perpetual then Some(0.5) else None, at)
  }

  predicate StandsStill(p: PositionRow) {
    && p.side == Long
    && p.avgEntryPrice == p.currentPrice == 100.0 && p.unrealizedPnl == p.fundingCost == 0.0
    && p.exitReason != Some(ExitReason.StopLoss)
    && (p.status == Open ==>
          p.quantity == 1.0 && p.leverage == 1.0 && p.collateral == if p.key.itype == Perpetual then 100.0 else 0.0)
  }

  /** Tables in which nothing has been won or lost, and each open position ties up 100. */
  ghost predicate Calm(settings: Settings, t: Tables) {
    && (forall p :: p in t.positions ==> StandsStill(p))
    && (forall x :: x in t.trades ==> x.realizedPnl == x.feePaid == 0.0)
    && CashBalance(t) == Balance(settings) - 100.0 * CountOpen(t.positions) as real
    && t.portfolio.startingBalance == t.portfolio.peakEquity == Balance(settings)
  }

  lemma RowStandsStill(p: PositionRow, symbol: string)
    requires StandsStill(p)
    ensures Reprice(p, map[symbol := 100.0]) == p
    ensures EquityContribution(p) == OpenGross(p) == OpenNet(p) == LongExposure(p) == if p.status == Open then 100.0 else 0.0
  {
  }

  lemma {:induction false} CalmSums(positions: seq<PositionRow>)
    requires forall p :: p in positions ==> StandsStill(p)
    ensures var worth := 100.0 * CountOpen(positions) as real;
            SumBy(positions, EquityContribution) == SumBy(positions, OpenGross) == SumBy(positions, OpenNet)
            == SumBy(positions, LongExposure) == worth
  {
    if positions != [] {
      var n := |positions| - 1;
      CalmSums(positions[..n]);
      RowStandsStill(positions[n], "");
      hide StandsStill, EquityContribution, OpenGross, OpenNet, LongExposure;
    }
  }

  lemma {:induction false} NothingRealized(trades: seq<TradeRow>, start: int)
    requires forall x :: x in trades ==> x.realizedPnl == 0.0
    ensures SumBy(trades, RealizedSinceOf(start)) == 0.0
  {
    if trades != [] {
      NothingRealized(trades[..|trades| - 1], start);
    }
  }

  lemma {:induction false} NoFees(trades: seq<TradeRow>, id: nat)
    requires forall x :: x in trades ==> x.feePaid == 0.0
    ensures EntryFees(trades, id) == 0.0
  {
    if trades != [] {
      NoFees(trades[..|trades| - 1], id);
    }
  }

  /** Marking a market at 100 changes no row, and finds all the money. */
  lemma CalmMarks(settings: Settings, t: Tables, symbol: string)
    requires Calm(settings, t)
    ensures var r, open := Recalculate(t, map[symbol := 100.0]), 100.0 * CountOpen(t.positions) as real;
            && r == t.(portfolio := r.portfolio)
            && Calm(settings, r)
            && r.portfolio.lastEquity == r.portfolio.peakEquity == Balance(settings)
            && r.portfolio.cashBalance == Balance(settings) - open
            && r.portfolio.grossExposure == r.portfolio.netExposure == SideExposure(r.positions, Long) == open
  {
    var r := Recalculate(t, map[symbol := 100.0]);
    forall i | 0 <= i < |t.positions|
      ensures Reprice(t.positions[i], map[symbol := 100.0]) == t.positions[i]
    {
      RowStandsStill(t.positions[i], symbol);
    }
    assert r.positions == t.positions;
    CalmSums(t.positions);
    hide StandsStill, EquityContribution, OpenGross, OpenNet, OpenMargin, OpenUnrealized, LongExposure, RepriceAll, CountOpen, SumBy;
  }

  // ---------- Entries ----------

  /** The arguments of an entry of some units at 100, within a tenth of the balance. */
  ghost predicate BuysUnits(settings: Settings, a: EntryArgs, units: real) {
    && a.key.symbol in settings.symbolAllowlist && a.referencePrice == 100.0 && a.orderType == Market && a.limitPrice == None
    && a.side == Long && SelectedLeverage(settings, a) == 1.0 && StopLossPct(a) == TakeProfitPct(a) == 0.1
    && a.spreadBps == None && a.slippageBps == None && SelectedModel(settings, a.model) == CandleModel
    && RequestedQuantity(settings, a, Balance(settings)) == units
    && 1.0 <= units <= settings.maxConcurrentPositions as real
  }

  function OrderOf(units: real): NormalizedOrder {
    NormalizedOrder(units, None, 1.0)
  }

  lemma UnitsAreNormal(settings: Settings, units: real)
    requires IsRoomy(settings) && units >= 1.0
    ensures NormalizeOrder(settings, OPEN_MARKET.instrument, units, None, 100.0, 1.0) == Success(OrderOf(units))
  {
  }

  function ProposalFor(key: Key, units: real): Proposal {
    Proposal(key.symbol, units, 100.0, 0.1, key.itype, 1.0, Long, 0.0, 0.0, None,
             if key.itype == Perpetual then Some(0.5) else None)
  }

  lemma UnitsAreProposed(settings: Settings, a: EntryArgs, units: real)
    requires IsRoomy(settings) && BuysUnits(settings, a, units)
    ensures ProposalOf(settings, a, OPEN_MARKET, OrderOf(units)) == ProposalFor(a.key, units)
    ensures EntryPriceOf(a, OrderOf(units)) == 100.0
  {
    hide RequestedQuantity;
  }

  /** Tables marked at 100, with a free slot. */
  ghost predicate HasRoom(settings: Settings, t: Tables) {
    && Calm(settings, t) && CountOpen(t.positions) < settings.maxConcurrentPositions
    && t.portfolio.lastEquity == Balance(settings)
    && t.portfolio.cashBalance >= Balance(settings) * 0.9
    && 0.0 <= t.portfolio.grossExposure == t.portfolio.netExposure == SideExposure(t.positions, Long) <= Balance(settings) * 0.1
  }

  lemma GateIsPassed(settings: Settings, t: Tables, key: Key, units: real, now: int)
    requires IsRoomy(settings) && HasRoom(settings, t) && key.symbol in settings.symbolAllowlist && units >= 1.0
    ensures GateChecks(settings, t, ProposalFor(key, units), now) == None
  {
    NothingRealized(t.trades, StartOfDay(now));
    NotBlocked(settings, t, key.symbol, now);
    WeekdayIsAllowed(settings, now);
    hide SymbolBlocked, SideExposure, CountOpen, SumBy, Weekday, StartOfDay, InSession, StandsStill;
  }

  lemma RatioAtMostOne(part: real, whole: real)
    requires whole > 0.0 && part <= whole
    ensures Ratio(part, whole) <= 1.0
  {
    var q := part / whole;
    assert q * whole == part;
    assert (1.0 - q) * whole == whole - part;
  }

  lemma ChecksArePassed(settings: Settings, t: Tables, key: Key, units: real)
    requires IsRoomy(settings) && HasRoom(settings, t) && 1.0 <= units <= settings.maxConcurrentPositions as real
    ensures TradeChecks(settings, t, ProposalFor(key, units)) == None
    ensures ExposureChecks(settings, t, ProposalFor(key, units)) == None
  {
    var notional := NotionalOf(ProposalFor(key, units));
    assert notional == 100.0 * units && notional <= Balance(settings) * 0.1;
    RatioAtMostOne(ProposedGross(t, notional), t.portfolio.lastEquity);
    RatioAtMostOne(ProposedNet(t, Long, notional), t.portfolio.lastEquity);
    RatioAtMostOne(ProposedSide(t, Long, notional), t.portfolio.lastEquity);
    hide SideExposure, Calm, Ratio, NotionalOf, CountOpen;
  }

  lemma UnitsAreApproved(settings: Settings, t: Tables, a: EntryArgs, units: real, now: int)
    requires IsRoomy(settings) && Calm(settings, t) && CountOpen(t.positions) < settings.maxConcurrentPositions
    requires BuysUnits(settings, a, units)
    ensures var (marked, decision) := EvaluateEntry(settings, t, ProposalOf(settings, a, OPEN_MARKET, OrderOf(units)), now);
            decision == Approved && Calm(settings, marked) && marked == t.(portfolio := marked.portfolio)
  {
    CalmMarks(settings, t, a.key.symbol);
    UnitsAreProposed(settings, a, units);
    var marked, e := Recalculate(t, map[a.key.symbol := 100.0]), ProposalFor(a.key, units);
    assert HasRoom(settings, marked) && a.key.symbol in settings.symbolAllowlist by {
      hide Calm, SideExposure, Recalculate, IsRoomy, RequestedQuantity;
    }
    assert 1.0 <= units <= settings.maxConcurrentPositions as real && e.symbol == a.key.symbol && e.price == 100.0;
    hide Calm, HasRoom, GateChecks, TradeChecks, ExposureChecks, Recalculate, ProposalOf, ProposalFor, BuysUnits, IsRoomy;
    GateIsPassed(settings, marked, a.key, units, now);
    ChecksArePassed(settings, marked, a.key, units);
  }

  lemma WeekdayIsAllowed(settings: Settings, now: int)
    requires IsRoomy(settings)
    ensures Weekday(now) in settings.allowedWeekdays && InSession(settings, now)
  {
    var day := Weekday(now);
    assert 0 <= day < 7;
    assert settings.allowedWeekdays[day] == day;
  }

  lemma NotBlocked(settings: Settings, t: Tables, symbol: string, now: int)
    requires Calm(settings, t)
    ensures !SymbolBlocked(settings, t.positions, symbol, now)
  {
  }

  function FilledReport(id: nat, units: real): Report {
    Report(id, Filled, units, units, 0.0, Some(100.0), 0.0)
  }

  lemma UnitsArePrepared(settings: Settings, t: Tables, a: EntryArgs, units: real)
    requires IsRoomy(settings) && Calm(settings, t) && BuysUnits(settings, a, units) && FindOpen(t.positions, a.key).None?
    ensures var (marked, prepared) := PrepareEntry(settings, t, a, OPEN_MARKET);
            prepared == Success(OrderOf(units)) && Calm(settings, marked) && marked == t.(portfolio := marked.portfolio)
  {
    CalmMarks(settings, t, a.key.symbol);
    UnitsAreNormal(settings, units);
    hide NormalizeOrder, RequestedQuantity, Recalculate, Calm, SelectedLeverage, SideExposure, IsRoomy, OrderOf;
  }

  lemma UnitsAreFilled(settings: Settings, ex: ExchangeState, a: EntryArgs, units: real)
    requires IsRoomy(settings) && BuysUnits(settings, a, units)
    ensures Place(FeesOf(settings), ex, EntryRequest(settings, a, OPEN_MARKET, OrderOf(units))).1 == FilledReport(ex.nextId, units)
  {
    hide RequestedQuantity;
  }

  /** Such an entry adds its position and its trade, and nothing else to either table. */
  lemma EntryGoesThrough(settings: Settings, w: World, a: EntryArgs, units: real, at: int)
    requires IsRoomy(settings) && Calm(settings, w.tables) && CountOpen(w.tables.positions) < settings.maxConcurrentPositions
    requires BuysUnits(settings, a, units) && FindOpen(w.tables.positions, a.key).None?
    ensures var t, (after, result) := w.tables, SubmitEntry(settings, w, a, OPEN_MARKET, at);
            && result.Success?
            && after.tables.positions == t.positions + [EnteredPosition(Fill(a.key, units, at))]
            && after.tables.trades == t.trades + [EntryTrade(Fill(a.key, units, at), |t.orders|, |t.positions|)]
            && (units == 1.0 ==> Calm(settings, after.tables))
  {
    hide PrepareEntry, EvaluateEntry, Place, BookEntry, EntryRequest, ProposalOf, Calm, FindOpen, CountOpen, BuysUnits, IsRoomy,
         OrderOf, EnteredPosition, EntryTrade;
    var t := w.tables;
    var marked := PrepareEntry(settings, t, a, OPEN_MARKET).0;
    UnitsArePrepared(settings, t, a, units);
    UnitsAreApproved(settings, marked, a, units, at);
    var checked := EvaluateEntry(settings, marked, ProposalOf(settings, a, OPEN_MARKET, OrderOf(units)), at).0;
    UnitsAreFilled(settings, w.exchange, a, units);
    EntryIsBooked(settings, checked, a, units, FilledReport(w.exchange.nextId, units), at);
  }

  lemma EntryStaysCalm(settings: Settings, t: Tables, key: Key, orderId: nat, at: int, after: Tables)
    requires Calm(settings, t)
    requires after.positions == t.positions + [EnteredPosition(Fill(key, 1.0, at))]
    requires after.trades == t.trades + [EntryTrade(Fill(key, 1.0, at), orderId, |t.positions|)]
    requires after.portfolio.startingBalance == after.portfolio.peakEquity == Balance(settings)
    ensures Calm(settings, after)
  {
    var p, x := EnteredPosition(Fill(key, 1.0, at)), EntryTrade(Fill(key, 1.0, at), orderId, |t.positions|);
    SumByAppend(t.trades, x, CashFlowOf);
    assert StandsStill(p) && x.cashFlow == -100.0 && x.realizedPnl == 0.0;
    assert after.positions[..|t.positions|] == t.positions;
    assert CountOpen(after.positions) == CountOpen(t.positions) + 1;
    hide StandsStill, EnteredPosition, EntryTrade, SumBy, Balance;
  }

  lemma EntryIsBooked(settings: Settings, t: Tables, a: EntryArgs, units: real, report: Report, at: int)
    requires IsRoomy(settings) && Calm(settings, t) && BuysUnits(settings, a, units) && report == FilledReport(report.clientId, units)
    ensures var after := BookEntry(settings, t, a, OPEN_MARKET, OrderOf(units), report, at);
            && after.trades == t.trades + [EntryTrade(Fill(a.key, units, at), |t.orders|, |t.positions|)]
            && after.positions == t.positions + [EnteredPosition(Fill(a.key, units, at))]
            && (units == 1.0 ==> Calm(settings, after))
  {
    var e := Fill(a.key, units, at);
    BookedFill(settings, t, a, units, report, at);
    assert t.portfolio.startingBalance == t.portfolio.peakEquity == Balance(settings);
    hide BookEntry, BuysUnits, Calm, EnteredPosition, EntryTrade, Recalculate, CountOpen, IsRoomy, Balance;
    var entered := RecordEntry(t.(orders := BookEntry(settings, t, a, OPEN_MARKET, OrderOf(units), report, at).orders), e, |t.orders|);
    MarkedEntry(settings, t, entered, e, a.key.symbol);
    if units == 1.0 {
      EntryStaysCalm(settings, t, a.key, |t.orders|, at, entered);
      CalmMarks(settings, entered, a.key.symbol);
    }
  }

  lemma BookedFill(settings: Settings, t: Tables, a: EntryArgs, units: real, report: Report, at: int)
    requires IsRoomy(settings) && BuysUnits(settings, a, units) && report == FilledReport(report.clientId, units)
    ensures var after := BookEntry(settings, t, a, OPEN_MARKET, OrderOf(units), report, at);
            after == Recalculate(RecordEntry(t.(orders := after.orders), Fill(a.key, units, at), |t.orders|),
                                 map[a.key.symbol := 100.0])
  {
    assert EntryFillOf(settings, a, OPEN_MARKET, OrderOf(units), report, at) == Fill(a.key, units, at);
    hide RecordEntry, Recalculate, SelectedLeverage, RequestedQuantity, IsRoomy;
  }

  lemma MarkedEntry(settings: Settings, t: Tables, entered: Tables, e: EntryFill, symbol: string)
    requires Calm(settings, t) && e == Fill(e.key, e.quantity, e.at)
    requires entered.positions == t.positions + [EnteredPosition(e)]
    ensures var r := Recalculate(entered, map[symbol := 100.0]);
            r.positions == entered.positions && r.trades == entered.trades
  {
    assert Reprice(EnteredPosition(e), map[symbol := 100.0]) == EnteredPosition(e);
    hide StandsStill, EnteredPosition, Totals;
    RowsStandStill(entered.positions, symbol);
  }

  lemma RowsStandStill(positions: seq<PositionRow>, symbol: string)
    requires forall i :: 0 <= i < |positions| - 1 ==> StandsStill(positions[i])
    requires positions != [] && Reprice(positions[|positions| - 1], map[symbol := 100.0]) == positions[|positions| - 1]
    ensures RepriceAll(positions, map[symbol := 100.0]) == positions
  {
    forall i | 0 <= i < |positions| - 1
      ensures Reprice(positions[i], map[symbol := 100.0]) == positions[i]
    {
      RowStandsStill(positions[i], symbol);
    }
  }

  // ---------- Closes ----------

  function Sold(reason: ExitReason, at: int): ExitFill {
    ExitFill(100.0, 1.0, 0.0, reason, at)
  }

  /** A close of one unit at 100 books one exit fill and marks the market again. */
  lemma CloseGoesThrough(settings: Settings, w: World, id: nat, reason: ExitReason, at: int)
    requires IsRoomy(settings) && id < |w.tables.positions|
    requires var p := w.tables.positions[id];
             p.status == Open && p.quantity == 1.0 && p.leverage == 1.0 && p.side == Long
    ensures var t := w.tables;
            var (after, result) := ClosePosition(settings, w, id, MarketClose(100.0, reason), OPEN_MARKET, at);
            && result.Success?
            && |after.tables.orders| == |t.orders| + 1 && after.tables.orders[..|t.orders|] == t.orders
            && after.tables.orders[|t.orders|].createdAt == at
            && after.tables == Recalculate(RecordExit(t.(orders := after.tables.orders), id, Sold(reason, at), |t.orders|),
                                           map[t.positions[id].key.symbol := 100.0])
  {
    hide NormalizeOrder, Place, BookClose, RecordExit, Recalculate, CloseRequest, IsRoomy, OrderOf;
    UnitsAreNormal(settings, 1.0);
    SaleIsFilled(settings, w.exchange, w.tables.positions[id], reason);
    BookedSale(settings, w.tables, id, reason, FilledReport(w.exchange.nextId, 1.0), at);
  }

  lemma SaleIsFilled(settings: Settings, ex: ExchangeState, p: PositionRow, reason: ExitReason)
    requires IsRoomy(settings) && p.side == Long
    ensures Place(FeesOf(settings), ex, CloseRequest(settings, p, MarketClose(100.0, reason), OPEN_MARKET, OrderOf(1.0))).1
            == FilledReport(ex.nextId, 1.0)
  {
  }

  lemma BookedSale(settings: Settings, t: Tables, id: nat, reason: ExitReason, report: Report, at: int)
    requires id < |t.positions| && report == FilledReport(report.clientId, 1.0)
    ensures var after := BookClose(settings, t, id, MarketClose(100.0, reason), OPEN_MARKET, OrderOf(1.0), report, at);
            && |after.orders| == |t.orders| + 1 && after.orders[..|t.orders|] == t.orders
            && after.orders[|t.orders|].createdAt == at
            && after == Recalculate(RecordExit(t.(orders := after.orders), id, Sold(reason, at), |t.orders|),
                                    map[t.positions[id].key.symbol := 100.0])
  {
    assert ExitFillOf(MarketClose(100.0, reason), report, at) == Sold(reason, at);
    hide ExitedPosition, ExitTrade, Totals, RepriceAll;
  }

  /** Closing a position that stands still frees what it ties up, and leaves the tables calm. */
  lemma CloseStaysCalm(settings: Settings, t: Tables, id: nat, reason: ExitReason, orderId: nat, at: int)
    requires Calm(settings, t) && id < |t.positions| && t.positions[id].status == Open && reason != ExitReason.StopLoss
    ensures var after := RecordExit(t, id, Sold(reason, at), orderId);
            && Calm(settings, after)
            && CountOpen(after.positions) == CountOpen(t.positions) - 1
            && after.positions[id].status == Closed && after.positions[id].closedAt == Some(at)
            && after.positions[id].exitReason == Some(reason) && after.positions[id].key == t.positions[id].key
  {
    var p, quantity := t.positions[id], EntryQuantity(t.trades, id);
    NoFees(t.trades, id);
    var left, sold := ExitedPosition(p, Sold(reason, at), 0.0, quantity), ExitTrade(p, Sold(reason, at), 0.0, quantity, orderId, id);
    ParExit(p, reason, at, quantity, orderId, id);
    SumByAppend(t.trades, sold, CashFlowOf);
    CountAfterClosing(t.positions, id, left);
    hide StandsStill, ExitedPosition, ExitTrade, SumBy, CountOpen, Balance;
  }

  lemma ParExit(p: PositionRow, reason: ExitReason, at: int, quantity: real, orderId: nat, id: nat)
    requires StandsStill(p) && p.status == Open && reason != ExitReason.StopLoss
    ensures var left, sold := ExitedPosition(p, Sold(reason, at), 0.0, quantity), ExitTrade(p, Sold(reason, at), 0.0, quantity, orderId, id);
            && StandsStill(left) && left.status == Closed && left.closedAt == Some(at) && left.exitReason == Some(reason)
            && left.key == p.key
            && sold.cashFlow == 100.0 && sold.realizedPnl == sold.feePaid == 0.0
  {
    assert ProRata(0.0, 1.0, quantity) == 0.0;
  }

  lemma {:induction false} CountAfterClosing(positions: seq<PositionRow>, id: nat, row: PositionRow)
    requires id < |positions| && positions[id].status == Open && row.status == Closed
    ensures CountOpen(positions[id := row]) == CountOpen(positions) - 1
  {
    var n := |positions| - 1;
    if id == n {
      assert positions[id := row][..n] == positions[..n];
    } else {
      assert positions[id := row][..n] == positions[..n][id := row];
      CountAfterClosing(positions[..n], id, row);
    }
  }

  // ---------- Runs ----------

  /** A manual entry of one unit. */
  function Purchase(key: Key): EntryArgs {
    EntryArgs(None, key, 100.0, Market, None, None, Long, FromManual, Some(1.0), Some(0.1), Some(0.1), None, None, None, true)
  }

  function Buys(key: Key, at: int): Action {
    SubmitOther(Purchase(key), OPEN_MARKET, at)
  }

  lemma RunStep(settings: Settings, actions: seq<Action>, action: Action)
    ensures Run(settings, actions + [action]) == Apply(settings, Run(settings, actions), action)
  {
    assert (actions + [action])[..|actions|] == actions;
  }

  lemma PurchaseBuysOne(settings: Settings, key: Key)
    requires IsRoomy(settings) && key.symbol in settings.symbolAllowlist
    ensures BuysUnits(settings, Purchase(key), 1.0) && Purchase(key).key == key
  {
  }

  lemma NothingYetIsCalm(settings: Settings)
    requires IsRoomy(settings)
    ensures Calm(settings, Run(settings, []).tables) && Run(settings, []).tables == EmptyTables(Balance(settings))
  {
  }
}
