/** The paper engine and the backtester, side by side: which exit a bar triggers, and what a round
    trip earns. */
module Engines {
  import opened Common
  import opened Fees
  import opened Strategy
  import opened Ledger
  import opened LedgerLaws
  import opened PartialExits
  import opened Execution
  import Backtest
  import BacktestLaws
  import Instruments

  // ---------- Exits ----------

  /** The same open position in both engines: the same side and the same stored prices. */
  ghost predicate SamePosition(p: PositionRow, b: Backtest.BtPosition) {
    && p.side == b.side
    && p.stopLossPrice == b.stopLossPrice
    && p.takeProfitPrice == b.takeProfitPrice
    && OrElse(p.liquidationPrice, 0.0) == b.liquidationPrice
  }

  function SameReason(reason: ExitReason): Backtest.ExitReason {
    match reason
    case Liquidation => Backtest.ExitReason.Liquidation
    case StopLoss => Backtest.ExitReason.StopLoss
    case TakeProfit => Backtest.ExitReason.TakeProfit
    case StrategyExit => Backtest.ExitReason.StrategyExit
    case ManualExit => Backtest.ExitReason.EndOfTest
  }

  /** Both engines hold, or both exit for the same reason at the same raw price. */
  ghost predicate SameExit(live: Option<(real, ExitReason)>, test: Option<(real, Backtest.ExitReason)>) {
    match (live, test)
    case (None, None) => true
    case (Some((p, r)), Some((q, s))) => p == q && SameReason(r) == s
    case _ => false
  }

  /** The bar touches the price at which the position is liquidated, stopped, or takes profit. */
  predicate Liquidates(b: Backtest.BtPosition, row: SignalRow) {
    b.liquidationPrice != 0.0 && if b.side == Long then row.low <= b.liquidationPrice else row.high >= b.liquidationPrice
  }

  predicate Stops(b: Backtest.BtPosition, row: SignalRow) {
    if b.side == Long then row.low <= b.stopLossPrice else row.high >= b.stopLossPrice
  }

  predicate TakesProfit(b: Backtest.BtPosition, row: SignalRow) {
    if b.side == Long then row.high >= b.takeProfitPrice else row.low <= b.takeProfitPrice
  }

  /** The paper engine alone also exits on an entry signal of the other side. */
  predicate OnlyReversal(b: Backtest.BtPosition, row: SignalRow) {
    && row.entry && DesiredPositionSide(row) != b.side
    && !Liquidates(b, row) && !Stops(b, row) && !TakesProfit(b, row)
    && !(match (if b.side == Long then row.exitLong else row.exitShort)
         case Some(sideExit) => sideExit
         case None => row.exit)
  }

  /** The backtester alone acts on a stored price of zero, where the paper engine reads "not set". */
  predicate ZeroPriceFires(b: Backtest.BtPosition, row: SignalRow) {
    && !Liquidates(b, row)
    && ((b.side == Short && b.stopLossPrice == 0.0)
        || (b.side == Long && b.takeProfitPrice == 0.0 && !Stops(b, row)))
  }

  /** On a bar of positive prices the two engines choose the same exit exactly when there is no mere
      reversal signal and no stored price of zero that would fire. */
  lemma EnginesChooseTheSameExit(p: PositionRow, b: Backtest.BtPosition, row: SignalRow)
    requires SamePosition(p, b) && BacktestLaws.ValidRow(row)
    ensures SameExit(TriggeredExit(p, row), Backtest.ChooseExit(b, row))
            <==> !OnlyReversal(b, row) && !ZeroPriceFires(b, row)
  {
  }

  // ---------- Round trips ----------

  /** The same entry in both engines. */
  ghost predicate SameEntry(cfg: Backtest.BtConfig, e: EntryFill) {
    && CanEnter(e)
    && cfg.itype == e.key.itype && cfg.leverage == e.leverage
    && e.fee == CalculateFee(Notional(e.price, e.quantity), cfg.feeBps)
  }

  function TestPosition(cfg: Backtest.BtConfig, e: EntryFill): Backtest.BtPosition {
    Backtest.OpenedAt(cfg, e.side, e.quantity, e.price, e.at)
  }

  /** What a round trip earns: the move in its direction, less both fees. */
  function NetResult(e: EntryFill, price: real, exitFee: real): real {
    PnlOn(e.side, price, e.price, e.quantity) - e.fee - exitFee
  }

  /** The backtester records the round trip at what it moves through the balance. */
  lemma TestRoundTrip(cfg: Backtest.BtConfig, e: EntryFill, price: real, reason: Backtest.ExitReason, time: int)
    requires SameEntry(cfg, e)
    ensures var b := TestPosition(cfg, e);
            var trade := Backtest.TradeOf(cfg, b, price, reason, time);
            && Backtest.Proceeds(cfg, b, price) - Backtest.UpfrontCost(cfg, b) == trade.netPnl
            && trade.netPnl == NetResult(e, price, CalculateFee(Notional(price, e.quantity), cfg.feeBps))
  {
    hide Backtest.StopPrice, Backtest.TakeProfitPrice, Backtest.LiquidationPrice, CalculateFee, Notional;
    var b := TestPosition(cfg, e);
    assert b.entryFee == e.fee && b.side == e.side && b.quantity == e.quantity && b.entryPrice == e.price;
    assert b.entryNotional == Notional(e.price, e.quantity);
    assert Backtest.GrossPnl(b, price) == PnlOn(e.side, price, e.price, e.quantity);
    hide Backtest.GrossPnl, PnlOn, Backtest.OpenedAt;
    SaleOfAll(price, e.price, e.quantity);
  }

  lemma SaleOfAll(price: real, avg: real, quantity: real)
    ensures Notional(price, quantity) - Notional(avg, quantity) == PnlOn(Long, price, avg, quantity)
  {
  }

  /** What one exit of the whole position does to the cash of the ledger. */
  lemma LedgerRoundTrip(t: Tables, e: EntryFill, x: ExitFill, entryOrder: nat, exitOrder: nat)
    requires Books(t) && CanEnter(e) && x.filled >= e.quantity
    ensures var closed := RecordExit(RecordEntry(t, e, entryOrder), |t.positions|, x, exitOrder);
            && SumBy(closed.trades, CashFlowOf) - SumBy(t.trades, CashFlowOf) == NetResult(e, x.price, x.fee)
            && SumBy(closed.trades, RealizedOf) - SumBy(t.trades, RealizedOf) == NetResult(e, x.price, x.fee)
  {
    var id := |t.positions|;
    var entered := RecordEntry(t, e, entryOrder);
    var bought, p := EntryTrade(e, entryOrder, id), EnteredPosition(e);
    GlobalSums(t.trades, bought);
    NoTradesYet(t.trades, id);
    OwnSums(t.trades, bought, id);
    var fees, quantity := EntryFees(entered.trades, id), EntryQuantity(entered.trades, id);
    assert fees == e.fee && quantity == e.quantity;
    GlobalSums(entered.trades, ExitTrade(p, x, fees, quantity, exitOrder, id));
    assert entered.positions[id] == p;
    hide Books, SumBy, StopPrice, TakeProfitPrice, ExitedPosition, ExitRealized, ExitCashFlow, EntryCashFlow, NetResult;
    WholeExit(e, x);
  }

  /** The money of a whole exit right after the entry. */
  lemma WholeExit(e: EntryFill, x: ExitFill)
    requires CanEnter(e) && x.filled >= e.quantity
    ensures var p := EnteredPosition(e);
            && ExitRealized(p, x, e.fee, e.quantity) == NetResult(e, x.price, x.fee)
            && EntryTrade(e, 0, 0).cashFlow + ExitCashFlow(p, x) == NetResult(e, x.price, x.fee)
  {
    hide StopPrice, TakeProfitPrice, EntryCollateral;
    var p := EnteredPosition(e);
    ProRataOfAll(e.fee, e.quantity);
    ProRataOfAll(p.collateral, e.quantity);
    ProRataOfNothing(0.0, e.quantity, e.quantity);
    SpotSale(x.price, e.price, e.quantity, e.quantity);
    hide ProRata;
  }

  /** With equal fills and no funding, the cash that a round trip moves through the ledger is the
      result it realizes there and the net result that the backtester reports, in however many pieces
      the ledger sells the position. */
  lemma RoundTripsAgree(cfg: Backtest.BtConfig, t: Tables, e: EntryFill, entryOrder: nat, sale: Sale, pieces: seq<Piece>,
                        reason: Backtest.ExitReason)
    requires Books(t) && SameEntry(cfg, e)
    requires sale.feeBps == cfg.feeBps && sale.price >= 0.0
    requires SoldInPieces(EnteredPosition(e), pieces) && Quantity(pieces) == e.quantity
    ensures var sold := SellPieces(RecordEntry(t, e, entryOrder), |t.positions|, sale, pieces);
            var net := Backtest.TradeOf(cfg, TestPosition(cfg, e), sale.price, reason, sale.at).netPnl;
            && SumBy(sold.trades, CashFlowOf) - SumBy(t.trades, CashFlowOf) == net
            && SumBy(sold.trades, RealizedOf) - SumBy(t.trades, RealizedOf) == net
  {
    var id, entered := |t.positions|, RecordEntry(t, e, entryOrder);
    SoldPiecesAreOneExit(t, e, entryOrder, sale, pieces);
    LedgerRoundTrip(t, e, FillOf(sale, e.quantity), entryOrder, 0);
    TestRoundTrip(cfg, e, sale.price, reason, sale.at);
    hide Books, SellPieces, RecordExit, RecordEntry, Backtest.TradeOf, CalculateFee, SoldInPieces, SumBy, EnteredPosition,
         TestPosition, CanEnter, NetResult;
  }

  lemma SoldPiecesAreOneExit(t: Tables, e: EntryFill, entryOrder: nat, sale: Sale, pieces: seq<Piece>)
    requires Books(t) && CanEnter(e) && sale.price >= 0.0
    requires SoldInPieces(EnteredPosition(e), pieces) && Quantity(pieces) == e.quantity
    ensures var entered := RecordEntry(t, e, entryOrder);
            SameMoney(SellPieces(entered, |t.positions|, sale, pieces),
                      RecordExit(entered, |t.positions|, FillOf(sale, e.quantity), 0), |t.positions|)
  {
    var id, entered := |t.positions|, RecordEntry(t, e, entryOrder);
    EntryKeepsBooks(t, e, entryOrder);
    assert entered.positions[id] == EnteredPosition(e);
    hide Books, RecordExit, SellPieces, SameMoney, FillOf;
    PiecesAreOneSale(entered, id, sale, pieces, 0);
  }

  /** Both engines store the same stop, take-profit and liquidation prices exactly when the maintenance
      rate of the instrument is not above the default, or the entry price is zero. */
  lemma StoredPricesAgree(cfg: Backtest.BtConfig, e: EntryFill, maintenanceMarginRate: real)
    requires SameEntry(cfg, e) && e.key.itype == Perpetual
    requires cfg.settings.defaultMaintenanceMarginPct >= 0.0
    requires e.stopLossPct == cfg.params.stopLossPct && e.takeProfitPct == cfg.params.takeProfitPct
    requires e.liquidationPrice ==
             Some(Instruments.EstimateLiquidationPrice(cfg.settings, e.price, e.side, e.leverage, maintenanceMarginRate))
    ensures SamePosition(EnteredPosition(e), TestPosition(cfg, e))
            <==> maintenanceMarginRate <= cfg.settings.defaultMaintenanceMarginPct || e.price == 0.0
  {
    var inverse, m := 1.0 / Max(e.leverage, 1.0), cfg.settings.defaultMaintenanceMarginPct;
    var higher := Max(maintenanceMarginRate, m);
    InverseAtMostOne(Max(e.leverage, 1.0));
    NonNegativeProduct(e.price, 1.0 - inverse + m);
    NonNegativeProduct(e.price, 1.0 - inverse + higher);
    EqualProducts(e.price, 1.0 - inverse + m, 1.0 - inverse + higher);
    EqualProducts(e.price, 1.0 + inverse - m, 1.0 + inverse - higher);
    assert TestPosition(cfg, e).liquidationPrice == Backtest.LiquidationPrice(cfg, e.side, e.price);
  }

  lemma EqualProducts(a: real, b: real, c: real)
    ensures a * b == a * c <==> a == 0.0 || b == c
  {
    assert a * b - a * c == a * (b - c);
  }

  lemma InverseAtMostOne(l: real)
    requires l >= 1.0
    ensures 1.0 / l <= 1.0
  {
  }

  // ---------- Entries on which the engines part ----------

  /** An entry at 100 that both engines make, without leverage. */
  ghost predicate PlainEntry(cfg: Backtest.BtConfig, e: EntryFill) {
    && SameEntry(cfg, e) && e.price == 100.0 && e.leverage == 1.0
    && e.stopLossPct == cfg.params.stopLossPct && e.takeProfitPct == cfg.params.takeProfitPct
    && (if e.key.itype == Spot then e.liquidationPrice == None
        else e.liquidationPrice == Some(Instruments.EstimateLiquidationPrice(cfg.settings, e.price, e.side, e.leverage, 0.0)))
    && 0.0 <= cfg.settings.defaultMaintenanceMarginPct <= 0.5
  }

  /** A bar whose only news is an entry signal of the other side. */
  lemma ReversalDivides(cfg: Backtest.BtConfig, e: EntryFill)
    requires PlainEntry(cfg, e) && e.stopLossPct == e.takeProfitPct == 0.1
    ensures var row := SignalRow(e.at, 105.0, 95.0, 100.0, 0.0, true, false, None, None, -Direction(e.side), 1.0);
            var p, b := EnteredPosition(e), TestPosition(cfg, e);
            && SamePosition(p, b) && BacktestLaws.ValidRow(row) && OnlyReversal(b, row)
            && TriggeredExit(p, row) == Some((100.0, ExitReason.StrategyExit)) && Backtest.ChooseExit(b, row) == None
  {
  }

  /** A take-profit of -100% stores a take-profit price of zero for a long position, and a stop-loss of -100%
      a stop price of zero for a short one. The backtester exits at zero on the next bar. */
  lemma ZeroPricesDivide(cfg: Backtest.BtConfig, e: EntryFill)
    requires PlainEntry(cfg, e)
    requires e.stopLossPct == (if e.side == Long then 0.1 else -1.0) && e.takeProfitPct == (if e.side == Long then -1.0 else 0.1)
    ensures var row := SignalRow(e.at, 105.0, 95.0, 100.0, 0.0, false, false, None, None, 0.0, 0.0);
            var p, b := EnteredPosition(e), TestPosition(cfg, e);
            && SamePosition(p, b) && BacktestLaws.ValidRow(row) && ZeroPriceFires(b, row)
            && TriggeredExit(p, row) == None && Backtest.ChooseExit(b, row).Some? && Backtest.ChooseExit(b, row).value.0 == 0.0
  {
  }
}
