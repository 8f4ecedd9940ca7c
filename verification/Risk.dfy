/** The entry checks of the risk service (app/services/risk_service.py). */
module Risk {
  import opened Common
  import opened Config
  import opened Ledger

  datatype RiskReason =
    | NotPositive | KillSwitch | NotAllowlisted | WeekdayFilter | SessionFilter | SpreadTooWide | SlippageTooHigh
    | TooManyPositions | DailyLossLimit | DrawdownLimit | StopLossCooldown | NoEquity | TradeRiskTooHigh
    | LeverageTooHigh | SpotShort | SpotNotionalCap | InsufficientCash | InsufficientCollateral | FundingRateGuard
    | LiquidationTooClose | GrossExposureCap | NetExposureCap | SideExposureCap

  datatype RiskDecision = Approved | Blocked(reason: RiskReason)

  datatype Proposal = Proposal(
    symbol: string,
    quantity: real,
    price: real,
    stopLossPct: real,
    itype: InstrumentType,
    leverage: real,
    side: PositionSide,
    spreadBps: real,
    slippageBps: real,
    fundingRate: Option<real>,
    liquidationPrice: Option<real>)

  predicate InSession(settings: Settings, now: int) {
    var current := TimeOfDay(now);
    if settings.sessionStart <= settings.sessionEnd
    then settings.sessionStart <= current <= settings.sessionEnd
    else current >= settings.sessionStart || current <= settings.sessionEnd
  }

  /** A position that was stopped out within the cooldown. */
  predicate StoppedOutSince(p: PositionRow, symbol: string, threshold: int) {
    && p.key.symbol == symbol
    && p.status == Closed
    && p.exitReason == Some(ExitReason.StopLoss)
    && p.closedAt.Some?
    && p.closedAt.value >= threshold
  }

  function CooldownThreshold(settings: Settings, now: int): int {
    now - settings.stopLossCooldownMinutes * MINUTE
  }

  predicate SymbolBlocked(settings: Settings, positions: seq<PositionRow>, symbol: string, now: int) {
    exists p :: p in positions && StoppedOutSince(p, symbol, CooldownThreshold(settings, now))
  }

  function Drawdown(portfolio: Portfolio): real {
    var peak := if portfolio.peakEquity > 0.0 then portfolio.peakEquity else 1.0;
    Max((portfolio.peakEquity - portfolio.lastEquity) / peak, 0.0)
  }

  function DailyRealizedPnl(t: Tables, now: int): real {
    SumBy(t.trades, RealizedSinceOf(StartOfDay(now)))
  }

  function NotionalOf(e: Proposal): real {
    e.quantity * e.price
  }

  /** The checks that do not look at the size of the trade. */
  function GateChecks(settings: Settings, t: Tables, e: Proposal, now: int): Option<RiskReason> {
    if e.quantity <= 0.0 || e.price <= 0.0 then Some(NotPositive)
    else if settings.killSwitch then Some(KillSwitch)
    else if e.symbol !in settings.symbolAllowlist then Some(NotAllowlisted)
    else if Weekday(now) !in settings.allowedWeekdays then Some(WeekdayFilter)
    else if !InSession(settings, now) then Some(SessionFilter)
    else if e.spreadBps > settings.maxSpreadBps then Some(SpreadTooWide)
    else if e.slippageBps > settings.maxSlippageBps then Some(SlippageTooHigh)
    else if CountOpen(t.positions) >= settings.maxConcurrentPositions then Some(TooManyPositions)
    else if DailyRealizedPnl(t, now) <= -(settings.paperStartingBalance * settings.maxDailyLossPct) then Some(DailyLossLimit)
    else if Drawdown(t.portfolio) >= settings.maxDrawdownPct then Some(DrawdownLimit)
    else if SymbolBlocked(settings, t.positions, e.symbol, now) then Some(StopLossCooldown)
    else if t.portfolio.lastEquity <= 0.0 then Some(NoEquity)
    else None
  }

  /** The checks on the trade itself. */
  function TradeChecks(settings: Settings, t: Tables, e: Proposal): Option<RiskReason>
    requires e.price > 0.0
  {
    var notional := NotionalOf(e);
    if notional * e.stopLossPct > t.portfolio.lastEquity * settings.maxRiskPerTrade then Some(TradeRiskTooHigh)
    else if e.leverage > settings.maxLeverage then Some(LeverageTooHigh)
    else if e.itype == Spot && e.side == Short then Some(SpotShort)
    else if e.itype == Spot && notional > t.portfolio.cashBalance * settings.maxPositionNotionalPct then Some(SpotNotionalCap)
    else if e.itype == Spot && notional > t.portfolio.cashBalance then Some(InsufficientCash)
    else if e.itype == Perpetual && notional / Max(e.leverage, 1.0) > t.portfolio.cashBalance then Some(InsufficientCollateral)
    else if e.itype == Perpetual && e.fundingRate.Some? && Abs(e.fundingRate.value) > settings.maxAbsFundingRate then
      Some(FundingRateGuard)
    else if e.itype == Perpetual && e.liquidationPrice.Some?
            && Abs(e.price - e.liquidationPrice.value) / e.price < settings.minLiquidationBufferPct then
      Some(LiquidationTooClose)
    else None
  }

  function Ratio(part: real, whole: real): real
    requires whole != 0.0
  {
    part / whole
  }

  function SideExposure(positions: seq<PositionRow>, side: PositionSide): real {
    if side == Short then SumBy(positions, ShortExposure) else SumBy(positions, LongExposure)
  }

  // What the portfolio would be exposed to.

  function ProposedGross(t: Tables, notional: real): real {
    t.portfolio.grossExposure + Abs(notional)
  }

  function ProposedNet(t: Tables, side: PositionSide, notional: real): real {
    Abs(t.portfolio.netExposure + Direction(side) * notional)
  }

  function ProposedSide(t: Tables, side: PositionSide, notional: real): real {
    SideExposure(t.positions, side) + Abs(notional)
  }

  function ExposureChecks(settings: Settings, t: Tables, e: Proposal): Option<RiskReason>
    requires t.portfolio.lastEquity > 0.0
  {
    var equity, notional := t.portfolio.lastEquity, NotionalOf(e);
    if Ratio(ProposedGross(t, notional), equity) > settings.maxGrossExposurePct then Some(GrossExposureCap)
    else if Ratio(ProposedNet(t, e.side, notional), equity) > settings.maxNetExposurePct then Some(NetExposureCap)
    else if Ratio(ProposedSide(t, e.side, notional), equity) > settings.maxSideExposurePct then Some(SideExposureCap)
    else None
  }

  function Decide(settings: Settings, t: Tables, e: Proposal, now: int): RiskDecision {
    var gate := GateChecks(settings, t, e, now);
    if gate.Some? then Blocked(gate.value)
    else
      var trade := TradeChecks(settings, t, e);
      if trade.Some? then Blocked(trade.value)
      else
        var exposure := ExposureChecks(settings, t, e);
        if exposure.Some? then Blocked(exposure.value) else Approved
  }

  /** Marks the symbol at the proposed price, then decides. */
  function EvaluateEntry(settings: Settings, t: Tables, e: Proposal, now: int): (Tables, RiskDecision) {
    var marked := Recalculate(t, map[e.symbol := e.price]);
    (marked, Decide(settings, marked, e, now))
  }
}
