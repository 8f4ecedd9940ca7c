/** What the size and the exit prices of a strategy mean in money. */
module StrategyLaws {
  import opened Common
  import opened Config
  import opened Fees
  import opened Strategy
  import opened Ledger
  import opened Execution
  import Instruments
  import Precision

  /** Half a unit of the eighth decimal. */
  const HALF: real := 0.000000005

  lemma Round8IsClose(x: real)
    ensures Abs(Precision.Round8(x) - x) <= HALF
    ensures x >= 0.0 ==> Precision.Round8(x) >= 0.0
  {
  }

  /** The largest quantity within a budget at a unit cost. */
  lemma QuotientFits(budget: real, unit: real, quantity: real)
    requires unit > 0.0
    ensures quantity <= QuantityFor(budget, unit) <==> quantity * unit <= budget
    ensures quantity >= QuantityFor(budget, unit) <==> quantity * unit >= budget
  {
    var q := budget / unit;
    assert q * unit == budget;
    assert (quantity - q) * unit == quantity * unit - budget;
  }

  /** Up to half a unit of the eighth decimal, `q` is the largest quantity that costs at most `budget`
      at `unit` each and at most `money` at `price` each. */
  ghost predicate LargestWithin(q: real, unit: real, budget: real, price: real, money: real) {
    && q >= 0.0
    && (q - HALF) * unit <= budget && (q - HALF) * price <= money
    && ((q + HALF) * unit >= budget || (q + HALF) * price >= money)
  }

  /** Rounding the smaller of two quantities to eight decimals. */
  lemma RoundedMinimum(budget: real, unit: real, money: real, price: real)
    requires unit > 0.0 && price > 0.0 && budget >= 0.0 && money >= 0.0
    ensures LargestWithin(Precision.Round8(Max(Min(QuantityFor(budget, unit), QuantityFor(money, price)), 0.0)),
                          unit, budget, price, money)
  {
    QuotientFits(budget, unit, 0.0);
    QuotientFits(money, price, 0.0);
    var smaller := Min(QuantityFor(budget, unit), QuantityFor(money, price));
    var q := Precision.Round8(smaller);
    Round8IsClose(smaller);
    hide Precision.Round8;
    QuotientFits(budget, unit, q - HALF);
    QuotientFits(budget, unit, q + HALF);
    QuotientFits(money, price, q - HALF);
    QuotientFits(money, price, q + HALF);
    hide QuantityFor;
  }

  /** A position is the largest one that loses no more than the risk budget over the stop distance and
      whose notional stays within its cap. */
  lemma SizeIsTheLargestWithinBudget(params: StrategyParams, cash: real, price: real, risk: real, cap: real, leverage: real)
    requires cash > 0.0 && price > 0.0 && risk >= 0.0 && cap >= 0.0
    ensures LargestWithin(PositionSize(params, cash, price, risk, cap, leverage), StopDistance(params, price),
                          cash * risk, price, cash * cap * Max(leverage, 1.0))
  {
    assert StopDistance(params, price) > 0.0;
    BudgetsAreNonNegative(cash, risk, cap, Max(leverage, 1.0));
    hide StopDistance, QuantityFor, Precision.Round8, Min, Max, LargestWithin;
    RoundedMinimum(cash * risk, StopDistance(params, price), cash * cap * Max(leverage, 1.0), price);
  }

  lemma BudgetsAreNonNegative(cash: real, risk: real, cap: real, leverage: real)
    requires cash > 0.0 && risk >= 0.0 && cap >= 0.0 && leverage >= 1.0
    ensures cash * risk >= 0.0 && cash * cap * leverage >= 0.0
  {
    assert cash * cap >= 0.0;
  }

  /** An exit at the stop price loses exactly the stop-loss fraction of the entry notional, one at the
      take-profit price gains exactly its fraction, on either side. */
  lemma BracketsAreFractions(side: PositionSide, entry: real, quantity: real, stopLossPct: real, takeProfitPct: real)
    ensures PnlOn(side, StopPrice(side, entry, stopLossPct), entry, quantity) == -stopLossPct * Notional(entry, quantity)
    ensures PnlOn(side, TakeProfitPrice(side, entry, takeProfitPct), entry, quantity) == takeProfitPct * Notional(entry, quantity)
  {
    BracketMoves(side, entry, stopLossPct);
    BracketMoves(side, entry, takeProfitPct);
    Scaled(Direction(side) * (StopPrice(side, entry, stopLossPct) - entry), entry, -stopLossPct, quantity);
    Scaled(Direction(side) * (TakeProfitPrice(side, entry, takeProfitPct) - entry), entry, takeProfitPct, quantity);
  }

  lemma BracketMoves(side: PositionSide, entry: real, pct: real)
    ensures Direction(side) * (StopPrice(side, entry, pct) - entry) == entry * -pct
    ensures Direction(side) * (TakeProfitPrice(side, entry, pct) - entry) == entry * pct
  {
  }

  lemma Scaled(move: real, entry: real, pct: real, quantity: real)
    requires move == entry * pct
    ensures move * quantity == pct * (entry * quantity)
  {
  }

  /** What is left of the collateral at the liquidation price is exactly the maintenance margin. */
  lemma LiquidationLeavesMaintenance(settings: Settings, e: EntryFill, maintenanceMarginRate: real)
    requires e.key.itype == Perpetual && e.price >= 0.0 && settings.defaultMaintenanceMarginPct >= 0.0
    ensures var liquidation := Instruments.EstimateLiquidationPrice(settings, e.price, e.side, e.leverage, maintenanceMarginRate);
            EntryCollateral(e) + PnlOn(e.side, liquidation, e.price, e.quantity) ==
            Max(maintenanceMarginRate, settings.defaultMaintenanceMarginPct) * Notional(e.price, e.quantity)
  {
    var m, l := Max(maintenanceMarginRate, settings.defaultMaintenanceMarginPct), Max(e.leverage, 1.0);
    var liquidation := Instruments.EstimateLiquidationPrice(settings, e.price, e.side, e.leverage, maintenanceMarginRate);
    MaintenanceMove(settings, e.price, e.side, e.leverage, maintenanceMarginRate);
    hide Instruments.EstimateLiquidationPrice, Max;
    Scaled(Direction(e.side) * (liquidation - e.price), e.price, m - 1.0 / l, e.quantity);
    CollateralIsItsShare(e.price * e.quantity, l, m);
  }

  lemma MaintenanceMove(settings: Settings, entry: real, side: PositionSide, leverage: real, maintenanceMarginRate: real)
    requires entry >= 0.0 && settings.defaultMaintenanceMarginPct >= 0.0
    ensures var liquidation := Instruments.EstimateLiquidationPrice(settings, entry, side, leverage, maintenanceMarginRate);
            Direction(side) * (liquidation - entry) ==
            entry * (Max(maintenanceMarginRate, settings.defaultMaintenanceMarginPct) - 1.0 / Max(leverage, 1.0))
    ensures Max(leverage, 1.0) >= 1.0
  {
    var m, l := Max(maintenanceMarginRate, settings.defaultMaintenanceMarginPct), Max(leverage, 1.0);
    var i := 1.0 / l;
    assert i * l == 1.0;
    assert i <= 1.0;
    NonNegativeProduct(entry, 1.0 - i + m);
  }

  lemma CollateralIsItsShare(notional: real, l: real, m: real)
    requires l >= 1.0
    ensures notional / l + (m - 1.0 / l) * notional == m * notional
  {
    var i := 1.0 / l;
    assert i * l == 1.0;
    assert notional / l == notional * i;
  }

  predicate ClosedBy(row: SignalRow, call: Call) {
    row.timestamp + call.timeframe.Length() <= call.now
  }

  /** In closed-bar mode the selected row is a closed bar of the frame with no closed bar after it; no
      row is selected exactly when neither of the last two bars has closed. */
  lemma SelectedRowIsTheNewestClosed(settings: Settings, call: Call)
    requires settings.evaluateOnBarCloseOnly && call.frame != []
    ensures var n, selected := |call.frame|, SelectedSignalRow(settings, call);
            && (selected.Some? ==>
                  exists k :: 0 <= k < n && call.frame[k] == selected.value && ClosedBy(call.frame[k], call)
                              && forall j :: k < j < n ==> !ClosedBy(call.frame[j], call))
            && (selected.None? <==> forall j :: 0 <= j < n && n - 2 <= j ==> !ClosedBy(call.frame[j], call))
  {
    var n := |call.frame|;
    hide Timeframe.Length;
    if !ClosedBy(call.frame[n - 1], call) && n >= 2 {
      assert forall j :: n - 2 < j < n ==> !ClosedBy(call.frame[j], call);
    }
  }
}
