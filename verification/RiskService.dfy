/** The risk service over the database: the entry decision and funding charges
    (app/services/risk_service.py). */
module RiskService {
  import opened Common
  import opened Config
  import opened Fees
  import opened Ledger
  import opened Database
  import opened Risk
  import PortfolioService

  /** What the position at the next place adds to either side. */
  lemma ExposureStep(rows: seq<PositionRow>, i: nat)
    requires i < |rows|
    ensures SumBy(rows[..i + 1], LongExposure) == SumBy(rows[..i], LongExposure) + LongExposure(rows[i])
    ensures SumBy(rows[..i + 1], ShortExposure) == SumBy(rows[..i], ShortExposure) + ShortExposure(rows[i])
  {
    assert rows[..i + 1] == rows[..i] + [rows[i]];
    SumByAppend(rows[..i], rows[i], LongExposure);
    SumByAppend(rows[..i], rows[i], ShortExposure);
    hide *;
  }

  lemma ClosedHasNoExposure(p: PositionRow)
    ensures p.status != Open ==> LongExposure(p) == ShortExposure(p) == 0.0
  {
  }

  class Service {
    const db: Store
    const settings: Settings
    const portfolio: PortfolioService.Service

    constructor (db: Store, settings: Settings)
      ensures this.db == db && this.settings == settings && Valid()
    {
      this.db, this.settings := db, settings;
      portfolio := new PortfolioService.Service(db);
    }

    ghost predicate Valid() {
      portfolio.db == db
    }

    method SideExposures() returns (long: real, short: real)
      ensures long == SideExposure(db.Tables().positions, Long)
      ensures short == SideExposure(db.Tables().positions, Short)
    {
      ghost var rows := RowsOf(db.positions);
      assert SumBy(rows[..0], LongExposure) == SumBy(rows[..0], ShortExposure) == 0.0;
      hide SumBy, RowsOf, OpenNotional;
      long, short := 0.0, 0.0;
      var i := 0;
      while i < |db.positions|
        invariant 0 <= i <= |db.positions|
        invariant long == SumBy(rows[..i], LongExposure) && short == SumBy(rows[..i], ShortExposure)
      {
        var position := db.positions[i];
        ExposureStep(rows, i);
        assert rows[i] == position.Row();
        ClosedHasNoExposure(rows[i]);
        if position.status == Open {
          var notional := OpenNotional(position.Row());
          if position.side == Short {
            short := short + Abs(notional);
          } else {
            long := long + Abs(notional);
          }
        }
        i := i + 1;
      }
      assert rows[..i] == rows;
    }

    /** Marks the symbol at the proposed price, then decides on the entry. */
    method EvaluateEntry(e: Proposal, now: int) returns (decision: RiskDecision)
      requires Valid() && db.Valid()
      modifies db.state, db.positions
      ensures (db.Tables(), decision) == Risk.EvaluateEntry(settings, old(db.Tables()), e, now)
    {
      hide SumBy, RowsOf, Recalculate, CountOpen, Drawdown, SymbolBlocked, DailyRealizedPnl, NotionalOf, InSession;
      portfolio.RecalculateState(map[e.symbol := e.price]);
      decision := Decision(e, now);
    }

    method Decision(e: Proposal, now: int) returns (decision: RiskDecision)
      ensures decision == Decide(settings, db.Tables(), e, now)
    {
      hide SumBy, RowsOf, CountOpen, Drawdown, SymbolBlocked, DailyRealizedPnl, NotionalOf, InSession, SideExposure;
      var state, rows, notional := db.state, RowsOf(db.positions), NotionalOf(e);
      var longExposure, shortExposure := SideExposures();
      if e.quantity <= 0.0 || e.price <= 0.0 { return Blocked(NotPositive); }
      if settings.killSwitch { return Blocked(KillSwitch); }
      if e.symbol !in settings.symbolAllowlist { return Blocked(NotAllowlisted); }
      if Weekday(now) !in settings.allowedWeekdays { return Blocked(WeekdayFilter); }
      if !InSession(settings, now) { return Blocked(SessionFilter); }
      if e.spreadBps > settings.maxSpreadBps { return Blocked(SpreadTooWide); }
      if e.slippageBps > settings.maxSlippageBps { return Blocked(SlippageTooHigh); }
      if CountOpen(rows) >= settings.maxConcurrentPositions { return Blocked(TooManyPositions); }
      if DailyRealizedPnl(db.Tables(), now) <= -(settings.paperStartingBalance * settings.maxDailyLossPct) {
        return Blocked(DailyLossLimit);
      }
      if Drawdown(state.Row()) >= settings.maxDrawdownPct { return Blocked(DrawdownLimit); }
      if SymbolBlocked(settings, rows, e.symbol, now) { return Blocked(StopLossCooldown); }
      if state.lastEquity <= 0.0 { return Blocked(NoEquity); }
      if notional * e.stopLossPct > state.lastEquity * settings.maxRiskPerTrade { return Blocked(TradeRiskTooHigh); }
      if e.leverage > settings.maxLeverage { return Blocked(LeverageTooHigh); }
      if e.itype == Spot && e.side == Short { return Blocked(SpotShort); }
      if e.itype == Spot {
        if notional > state.cashBalance * settings.maxPositionNotionalPct { return Blocked(SpotNotionalCap); }
        if notional > state.cashBalance { return Blocked(InsufficientCash); }
      } else {
        if notional / Max(e.leverage, 1.0) > state.cashBalance { return Blocked(InsufficientCollateral); }
        if e.fundingRate.Some? && Abs(e.fundingRate.value) > settings.maxAbsFundingRate { return Blocked(FundingRateGuard); }
        if e.liquidationPrice.Some? && Abs(e.price - e.liquidationPrice.value) / e.price < settings.minLiquidationBufferPct {
          return Blocked(LiquidationTooClose);
        }
      }
      var gross := state.grossExposure + Abs(notional);
      if Ratio(gross, state.lastEquity) > settings.maxGrossExposurePct { return Blocked(GrossExposureCap); }
      var net := Abs(state.netExposure + Direction(e.side) * notional);
      if Ratio(net, state.lastEquity) > settings.maxNetExposurePct { return Blocked(NetExposureCap); }
      var side := (if e.side == Short then shortExposure else longExposure) + Abs(notional);
      if Ratio(side, state.lastEquity) > settings.maxSideExposurePct { return Blocked(SideExposureCap); }
      decision := Approved;
    }

    /** Charges funding to a position; one without a trade history is refused. */
    method RecordFundingCharge(id: nat, fundingCost: real, at: int) returns (charged: bool)
      requires db.Valid() && id < |db.positions|
      modifies db, db.positions
      ensures db.Valid() && db.positions == old(db.positions)
      ensures db.Tables() == RecordFunding(old(db.Tables()), id, fundingCost, at)
      ensures charged <==> LatestTradeOrder(old(db.trades), id).Some?
    {
      hide RowsOf, Notional;
      var position, orderId := db.positions[id], LatestTradeOrder(db.trades, id);
      if orderId.None? { return false; }
      position.fundingCost := position.fundingCost + fundingCost;
      db.trades := db.trades + [
        TradeRow(orderId.value, id, position.key.itype, Funding, position.currentPrice, position.quantity,
                 Notional(position.currentPrice, position.quantity), 0.0, fundingCost, -fundingCost, -fundingCost, at)];
      ghost var was := old(RowsOf(db.positions))[id];
      assert position.Row() == was.(fundingCost := was.fundingCost + fundingCost);
      assert RowsOf(db.positions) == old(RowsOf(db.positions))[id := position.Row()];
      assert db.trades == old(db.trades) + [FundingTrade(was, fundingCost, orderId.value, id, at)];
      charged := true;
    }
  }
}
