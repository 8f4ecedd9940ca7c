/** What every strategy shares (app/strategies/base.py): the row of a signal frame and the
    decisions that are read off it. */
module Strategy {
  import opened Common
  import Precision

  /** One row of a signal frame. A side-specific exit column may be absent. */
  datatype SignalRow = SignalRow(
    timestamp: int,
    high: real,
    low: real,
    close: real,
    fundingRate: real,
    entry: bool,
    exit: bool,
    exitLong: Option<bool>,
    exitShort: Option<bool>,
    signal: real,
    confidence: real)

  datatype StrategyParams = StrategyParams(stopLossPct: real, takeProfitPct: real)

  predicate ShouldEnter(row: SignalRow, hasPosition: bool) {
    row.entry && !hasPosition
  }

  predicate ShouldExit(row: SignalRow, hasPosition: bool, side: PositionSide) {
    if !hasPosition then false
    else if side == Long && row.exitLong.Some? then row.exitLong.value
    else if side == Short && row.exitShort.Some? then row.exitShort.value
    else row.exit
  }

  function DesiredPositionSide(row: SignalRow): PositionSide {
    if row.signal < 0.0 then Short else Long
  }

  /** What one unit loses if its stop is hit: at least a quarter of a percent of the price. */
  function StopDistance(params: StrategyParams, price: real): real {
    Max(price * params.stopLossPct, price * 0.0025)
  }

  /** The quantity that uses up a budget at a unit cost. */
  function QuantityFor(budget: real, unit: real): real
    requires unit != 0.0
  {
    budget / unit
  }

  function PositionSize(params: StrategyParams, cashBalance: real, price: real,
                        riskFraction: real, maxNotionalFraction: real, leverage: real): real {
    if cashBalance <= 0.0 || price <= 0.0 then 0.0
    else
      var riskBudget := cashBalance * riskFraction;
      var notionalBudget := cashBalance * maxNotionalFraction * Max(leverage, 1.0);
      var quantityByRisk := QuantityFor(riskBudget, StopDistance(params, price));
      var quantityByNotional := QuantityFor(notionalBudget, price);
      Precision.Round8(Max(Min(quantityByRisk, quantityByNotional), 0.0))
  }
}
