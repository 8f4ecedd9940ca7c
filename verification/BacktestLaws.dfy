/** What every backtest keeps: conservation of money, chronology, solvency of a spot run, and the
    isolated-margin bound on what one position can lose. */
module BacktestLaws {
  import opened Common
  import opened Config
  import opened Fees
  import opened Strategy
  import opened Backtest
  import OrderBook

  // ---------- Conservation ----------

  function NetPnlOf(t: BtTrade): real { t.netPnl }

  function FeesOf(t: BtTrade): real { t.fees }

  function FundingOf(t: BtTrade): real { t.fundingPaid }

  function CountLiquidations(trades: seq<BtTrade>): int {
    if trades == [] then 0
    else CountLiquidations(trades[..|trades| - 1]) + if trades[|trades| - 1].exitReason == Liquidation then 1 else 0
  }

  /** The money that a position holds: its margin, or the coins at what they cost. */
  function Held(cfg: BtConfig, position: Option<BtPosition>): real {
    match position
    case None => 0.0
    case Some(p) => if cfg.itype == Spot then p.entryNotional else p.collateral
  }

  function OpenFee(position: Option<BtPosition>): real {
    if position.Some? then position.value.entryFee else 0.0
  }

  function OpenFunding(position: Option<BtPosition>): real {
    if position.Some? then position.value.fundingCost else 0.0
  }

  ghost predicate WellFormed(cfg: BtConfig, p: BtPosition) {
    && p.quantity > 0.0
    && p.entryNotional == p.entryPrice * p.quantity
    && (cfg.itype == Spot ==> p.side == Long && p.fundingCost == 0.0)
  }

  /** Every unit of money is in the balance, in the position, or accounted for by a trade. */
  ghost predicate Conserved(cfg: BtConfig, s: BtState) {
    && (s.position.Some? ==> WellFormed(cfg, s.position.value))
    && s.balance + Held(cfg, s.position) ==
       cfg.settings.paperStartingBalance + SumBy(s.trades, NetPnlOf) - OpenFee(s.position) - OpenFunding(s.position)
    && s.feesPaid == SumBy(s.trades, FeesOf) + OpenFee(s.position)
    && s.fundingPaid == SumBy(s.trades, FundingOf) + OpenFunding(s.position)
    && s.liquidationCount == CountLiquidations(s.trades)
  }

  lemma SpotProceeds(fill: real, entry: real, quantity: real)
    ensures fill * quantity == entry * quantity + Direction(Long) * (fill - entry) * quantity
  {
  }

  lemma SettleConserves(cfg: BtConfig, s: BtState, fill: real, reason: ExitReason, time: int)
    requires Conserved(cfg, s) && s.position.Some?
    ensures Conserved(cfg, Settle(cfg, s, s.position.value, fill, reason, time))
  {
    var p := s.position.value;
    var t := TradeOf(cfg, p, fill, reason, time);
    SumByAppend(s.trades, t, NetPnlOf);
    SumByAppend(s.trades, t, FeesOf);
    SumByAppend(s.trades, t, FundingOf);
    assert (s.trades + [t])[..|s.trades|] == s.trades;
    assert Proceeds(cfg, p, fill) == Held(cfg, s.position) + GrossPnl(p, fill) - ExitFee(cfg, p, fill) by {
      SpotProceeds(fill, p.entryPrice, p.quantity);
    }
  }

  lemma BarConserves(cfg: BtConfig, s: BtState, row: SignalRow)
    requires Conserved(cfg, s) && Bar(cfg, s, row).Success?
    ensures Conserved(cfg, Bar(cfg, s, row).value)
  {
    var funded := ChargeFunding(cfg, s, row);
    assert Conserved(cfg, funded);
    var exited := TryExit(cfg, funded, row).value;
    assert Conserved(cfg, exited) by {
      if exited != funded {
        var p := funded.position.value;
        var (raw, reason) := ChooseExit(p, row).value;
        var fill := SimulateFill(cfg, raw, p.quantity, ExitSide(p.side), row.timestamp).value;
        SettleConserves(cfg, funded, fill, reason, row.timestamp);
      }
    }
    EntryConserves(cfg, exited, row);
  }

  lemma EntryConserves(cfg: BtConfig, s: BtState, row: SignalRow)
    requires Conserved(cfg, s) && TryEnter(cfg, s, row).Success?
    ensures Conserved(cfg, TryEnter(cfg, s, row).value)
  {
    hide EntryQuantity, SimulateFill, OpenedAt, UpfrontCost, WellFormed, SumBy, CountLiquidations;
    var entered := TryEnter(cfg, s, row).value;
    if entered != s {
      var side, quantity := DesiredPositionSide(row), EntryQuantity(cfg, s.balance, row.close);
      OpeningConserves(cfg, side, quantity, SimulateFill(cfg, row.close, quantity, EntrySide(side), row.timestamp).value, row.timestamp);
    }
  }

  /** What an entry costs is what its position holds and its fee. */
  lemma OpeningConserves(cfg: BtConfig, side: PositionSide, quantity: real, fill: real, time: int)
    requires quantity > 0.0 && (cfg.itype == Spot ==> side == Long)
    ensures var p := OpenedAt(cfg, side, quantity, fill, time);
            && WellFormed(cfg, p) && p.fundingCost == 0.0
            && UpfrontCost(cfg, p) == Held(cfg, Some(p)) + p.entryFee
  {
    hide CalculateFee, StopPrice, TakeProfitPrice, LiquidationPrice;
  }

  lemma {:induction false} ReplayConserves(cfg: BtConfig, rows: seq<SignalRow>)
    requires Replay(cfg, rows).Success?
    ensures Conserved(cfg, Replay(cfg, rows).value)
    ensures |Replay(cfg, rows).value.curve| == |rows|
  {
    if rows != [] {
      var init := rows[..|rows| - 1];
      ReplayConserves(cfg, init);
      BarConserves(cfg, Replay(cfg, init).value, rows[|rows| - 1]);
    }
  }

  /** A finished run accounts for all its money: the ending balance is the starting balance and the
      net results of the trades, fees and funding are those of the trades, and there is one equity
      point per bar, the last one the ending equity. */
  lemma BacktestConserves(cfg: BtConfig, rows: seq<SignalRow>)
    requires Backtested(cfg, rows).Success?
    ensures var r := Backtested(cfg, rows).value;
            && r.endingBalance == cfg.settings.paperStartingBalance + SumBy(r.trades, NetPnlOf)
            && r.feesPaid == SumBy(r.trades, FeesOf)
            && r.fundingPaid == SumBy(r.trades, FundingOf)
            && r.liquidationCount == CountLiquidations(r.trades)
            && |r.curve| == |rows|
            && (rows != [] ==> r.curve[|rows| - 1].equity == r.endingEquity)
            && r.endingEquity == r.endingBalance
  {
    hide SimulateFill, Proceeds, TradeOf;
    ReplayConserves(cfg, rows);
    var s := Replay(cfg, rows).value;
    if rows != [] {
      var last := rows[|rows| - 1];
      if s.position.Some? {
        var p := s.position.value;
        var fill := SimulateFill(cfg, last.close, p.quantity, ExitSide(p.side), last.timestamp).value;
        SettleConserves(cfg, s, fill, EndOfTest, last.timestamp);
      } else {
        LastPointIsTheBalance(cfg, rows);
      }
    }
  }

  lemma LastPointIsTheBalance(cfg: BtConfig, rows: seq<SignalRow>)
    requires rows != [] && Replay(cfg, rows).Success? && Replay(cfg, rows).value.position.None?
    ensures var s := Replay(cfg, rows).value;
            |s.curve| > 0 && s.curve[|s.curve| - 1].equity == s.balance
  {
  }

  // ---------- Chronology ----------

  ghost predicate Increasing(rows: seq<SignalRow>) {
    forall i, j :: 0 <= i < j < |rows| ==> rows[i].timestamp < rows[j].timestamp
  }

  /** Trades follow one another: none begins before an earlier one has ended. */
  ghost predicate Sequential(trades: seq<BtTrade>) {
    && (forall t :: t in trades ==> t.entryTime <= t.exitTime)
    && (forall i, j :: 0 <= i < j < |trades| ==> trades[i].exitTime <= trades[j].entryTime)
  }

  /** Everything recorded lies at or before `now`, and an open position began after all trades. */
  ghost predicate Recorded(s: BtState, now: int) {
    && Sequential(s.trades)
    && (forall t :: t in s.trades ==> t.exitTime <= now)
    && (s.position.Some? ==>
          && s.position.value.entryTime <= now
          && forall t :: t in s.trades ==> t.exitTime <= s.position.value.entryTime)
  }

  lemma SettleRecords(cfg: BtConfig, s: BtState, fill: real, reason: ExitReason, now: int)
    requires Recorded(s, now) && s.position.Some?
    ensures Recorded(Settle(cfg, s, s.position.value, fill, reason, now), now)
  {
  }

  lemma BarRecords(cfg: BtConfig, s: BtState, row: SignalRow, before: int)
    requires Recorded(s, before) && before <= row.timestamp && Bar(cfg, s, row).Success?
    ensures Recorded(Bar(cfg, s, row).value, row.timestamp)
  {
    var funded := ChargeFunding(cfg, s, row);
    assert Recorded(funded, row.timestamp);
    var exited := TryExit(cfg, funded, row).value;
    if exited != funded {
      var p := funded.position.value;
      var (raw, reason) := ChooseExit(p, row).value;
      var fill := SimulateFill(cfg, raw, p.quantity, ExitSide(p.side), row.timestamp).value;
      SettleRecords(cfg, funded, fill, reason, row.timestamp);
    }
  }

  lemma {:induction false} ReplayRecords(cfg: BtConfig, rows: seq<SignalRow>)
    requires rows != [] && Increasing(rows) && Replay(cfg, rows).Success?
    ensures Recorded(Replay(cfg, rows).value, rows[|rows| - 1].timestamp)
  {
    var n := |rows| - 1;
    if n > 0 {
      assert rows[..n][n - 1] == rows[n - 1];
      ReplayRecords(cfg, rows[..n]);
      BarRecords(cfg, Replay(cfg, rows[..n]).value, rows[n], rows[n - 1].timestamp);
    } else {
      BarRecords(cfg, Start(cfg), rows[0], rows[0].timestamp);
    }
  }

  /** The trades of a run over a rising time index never overlap. */
  lemma TradesDoNotOverlap(cfg: BtConfig, rows: seq<SignalRow>)
    requires Increasing(rows) && Backtested(cfg, rows).Success?
    ensures Sequential(Backtested(cfg, rows).value.trades)
  {
    if rows != [] {
      ReplayRecords(cfg, rows);
      var s, last := Replay(cfg, rows).value, rows[|rows| - 1];
      if s.position.Some? {
        var p := s.position.value;
        var fill := SimulateFill(cfg, last.close, p.quantity, ExitSide(p.side), last.timestamp).value;
        SettleRecords(cfg, s, fill, EndOfTest, last.timestamp);
      }
    }
  }

  // ---------- A spot run never goes into debt ----------

  ghost predicate ValidRow(row: SignalRow) {
    0.0 < row.low <= row.close <= row.high
  }

  ghost predicate ValidRows(rows: seq<SignalRow>) {
    forall i :: 0 <= i < |rows| ==> ValidRow(rows[i])
  }

  ghost predicate PositivePrices(snapshots: map<int, OrderBook.Book>) {
    forall t :: t in snapshots ==>
      && (forall l :: l in snapshots[t].bids ==> l.price >= 0.0)
      && (forall l :: l in snapshots[t].asks ==> l.price >= 0.0)
  }

  /** Rates that cannot take more than there is. */
  ghost predicate SaneRates(cfg: BtConfig) {
    && BpsToFraction(cfg.feeBps) <= 1.0
    && -1.0 <= BpsToFraction(cfg.slippageBps) <= 1.0
    && -1.0 <= cfg.params.takeProfitPct
  }

  ghost predicate SpotSolvent(cfg: BtConfig, s: BtState) {
    && s.balance >= 0.0
    && (s.position.Some? ==>
          var p := s.position.value;
          && p.side == Long && p.quantity > 0.0 && p.liquidationPrice == 0.0
          && p.takeProfitPrice >= 0.0)
  }

  lemma FillIsNonNegative(cfg: BtConfig, price: real, quantity: real, side: OrderSide, time: int)
    requires SaneRates(cfg) && PositivePrices(cfg.snapshots) && price >= 0.0
    requires SimulateFill(cfg, price, quantity, side, time).Success?
    ensures SimulateFill(cfg, price, quantity, side, time).value >= 0.0
  {
    if cfg.model == DepthModel && time in cfg.snapshots {
      var book := cfg.snapshots[time];
      OrderBook.AverageIsNonNegative(if side == Buy then book.asks else book.bids, quantity);
    }
    NonNegativeProduct(price, 1.0 + BpsToFraction(cfg.slippageBps));
    NonNegativeProduct(price, 1.0 - BpsToFraction(cfg.slippageBps));
  }

  lemma FeeIsAffordable(notional: real, feeBps: real)
    requires notional >= 0.0 && BpsToFraction(feeBps) <= 1.0
    ensures 0.0 <= CalculateFee(notional, feeBps) <= notional
  {
    assert notional - notional * BpsToFraction(feeBps) == notional * (1.0 - BpsToFraction(feeBps));
    NonNegativeProduct(notional, 1.0 - BpsToFraction(feeBps));
  }

  lemma SpotCloseIsSolvent(cfg: BtConfig, s: BtState, raw: real, reason: ExitReason, time: int)
    requires cfg.itype == Spot && SaneRates(cfg) && PositivePrices(cfg.snapshots)
    requires SpotSolvent(cfg, s) && s.position.Some? && raw >= 0.0
    requires SimulateFill(cfg, raw, s.position.value.quantity, ExitSide(s.position.value.side), time).Success?
    ensures var p := s.position.value;
            var fill := SimulateFill(cfg, raw, p.quantity, ExitSide(p.side), time).value;
            Settle(cfg, s, p, fill, reason, time).balance >= 0.0
  {
    hide SimulateFill, CalculateFee, GrossPnl, TradeOf, CountLiquidations, PositivePrices;
    var p := s.position.value;
    FillIsNonNegative(cfg, raw, p.quantity, ExitSide(p.side), time);
    var fill := SimulateFill(cfg, raw, p.quantity, ExitSide(p.side), time).value;
    NonNegativeProduct(fill, p.quantity);
    assert Notional(fill, p.quantity) >= 0.0;
    hide Notional, BpsToFraction;
    FeeIsAffordable(Notional(fill, p.quantity), cfg.feeBps);
    assert Proceeds(cfg, p, fill) >= 0.0;
  }

  lemma SpotEntryIsSolvent(cfg: BtConfig, s: BtState, row: SignalRow)
    requires cfg.itype == Spot && SaneRates(cfg) && PositivePrices(cfg.snapshots)
    requires SpotSolvent(cfg, s) && ValidRow(row) && TryEnter(cfg, s, row).Success?
    ensures SpotSolvent(cfg, TryEnter(cfg, s, row).value)
  {
    hide EntryQuantity, OrderBook.MarketFill;
    var side, quantity := DesiredPositionSide(row), EntryQuantity(cfg, s.balance, row.close);
    if TryEnter(cfg, s, row).value != s {
      FillIsNonNegative(cfg, row.close, quantity, EntrySide(side), row.timestamp);
      var fill := SimulateFill(cfg, row.close, quantity, EntrySide(side), row.timestamp).value;
      NonNegativeProduct(fill, 1.0 + cfg.params.takeProfitPct);
      NonNegativeProduct(fill, quantity);
    }
  }

  lemma SpotBarIsSolvent(cfg: BtConfig, s: BtState, row: SignalRow)
    requires cfg.itype == Spot && SaneRates(cfg) && PositivePrices(cfg.snapshots)
    requires SpotSolvent(cfg, s) && ValidRow(row) && Bar(cfg, s, row).Success?
    ensures SpotSolvent(cfg, Bar(cfg, s, row).value)
  {
    assert ChargeFunding(cfg, s, row) == s;
    var exited := TryExit(cfg, s, row).value;
    if exited != s {
      var (raw, reason) := ChooseExit(s.position.value, row).value;
      SpotCloseIsSolvent(cfg, s, raw, reason, row.timestamp);
    }
    SpotEntryIsSolvent(cfg, exited, row);
  }

  lemma {:induction false} SpotReplayIsSolvent(cfg: BtConfig, rows: seq<SignalRow>)
    requires cfg.itype == Spot && SaneRates(cfg) && PositivePrices(cfg.snapshots)
    requires cfg.settings.paperStartingBalance >= 0.0
    requires ValidRows(rows) && Replay(cfg, rows).Success?
    ensures SpotSolvent(cfg, Replay(cfg, rows).value)
  {
    if rows != [] {
      var init := rows[..|rows| - 1];
      SpotReplayIsSolvent(cfg, init);
      SpotBarIsSolvent(cfg, Replay(cfg, init).value, rows[|rows| - 1]);
    }
  }

  /** With fees and slippage of at most 100%, a spot run never owes money: not at the end, and not
      after any bar on the way. */
  lemma SpotNeverInDebt(cfg: BtConfig, rows: seq<SignalRow>, n: nat)
    requires cfg.itype == Spot && SaneRates(cfg) && PositivePrices(cfg.snapshots)
    requires cfg.settings.paperStartingBalance >= 0.0
    requires ValidRows(rows) && Backtested(cfg, rows).Success? && n <= |rows|
    ensures Replay(cfg, rows[..n]).Success? && Replay(cfg, rows[..n]).value.balance >= 0.0
    ensures Backtested(cfg, rows).value.endingBalance >= 0.0
  {
    if Replay(cfg, rows[..n]).Failure? {
      ReplayStopsAtFailure(cfg, rows, n);
      assert false;
    }
    SpotReplayIsSolvent(cfg, rows[..n]);
    SpotReplayIsSolvent(cfg, rows);
    var s := Replay(cfg, rows).value;
    if rows != [] && s.position.Some? {
      var last := rows[|rows| - 1];
      SpotCloseIsSolvent(cfg, s, last.close, EndOfTest, last.timestamp);
    }
  }

  // ---------- The isolated-margin loss bound ----------

  /** The price is on the solvent side of the liquidation price. */
  ghost predicate OnSolventSide(side: PositionSide, price: real, liquidation: real) {
    if side == Long then price >= liquidation else price <= liquidation
  }

  function CollateralOf(t: BtTrade): real {
    t.entryPrice * t.quantity / Max(t.leverage, 1.0)
  }

  /** What is left of the margin is at least the maintenance margin, less the slippage of a fill at
      the liquidation price. */
  ghost predicate LossIsBounded(cfg: BtConfig, t: BtTrade) {
    CollateralOf(t) + t.grossPnl >=
    cfg.settings.defaultMaintenanceMarginPct * (t.entryPrice * t.quantity)
    - BpsToFraction(cfg.slippageBps) * (t.quantity * LiquidationPrice(cfg, t.side, t.entryPrice))
  }

  /** Candle fills, slippage between 0 and 100%, margin above maintenance, take-profit not negative. */
  ghost predicate MarginRun(cfg: BtConfig) {
    && cfg.itype == Perpetual
    && cfg.model == CandleModel
    && 0.0 <= BpsToFraction(cfg.slippageBps) <= 1.0
    && cfg.settings.defaultMaintenanceMarginPct <= 1.0 / Max(cfg.leverage, 1.0)
    && cfg.params.takeProfitPct >= 0.0
  }

  ghost predicate MarginPosition(cfg: BtConfig, p: BtPosition) {
    && p.entryPrice >= 0.0 && p.quantity > 0.0 && p.leverage == cfg.leverage
    && p.stopLossPrice == StopPrice(p.side, p.entryPrice, cfg.params.stopLossPct)
    && p.takeProfitPrice == TakeProfitPrice(p.side, p.entryPrice, cfg.params.takeProfitPct)
    && p.liquidationPrice == LiquidationPrice(cfg, p.side, p.entryPrice)
  }

  /** The take-profit price never lies beyond the liquidation price. */
  lemma TakeProfitIsSolvent(cfg: BtConfig, p: BtPosition)
    requires MarginRun(cfg) && MarginPosition(cfg, p)
    ensures OnSolventSide(p.side, p.takeProfitPrice, p.liquidationPrice)
    ensures p.side == Short ==> p.liquidationPrice >= p.entryPrice
  {
    var room := 1.0 / Max(cfg.leverage, 1.0) - cfg.settings.defaultMaintenanceMarginPct;
    NonNegativeProduct(p.entryPrice, room);
    NonNegativeProduct(p.entryPrice, cfg.params.takeProfitPct);
    RoomAtEntry(p.entryPrice, 1.0 / Max(cfg.leverage, 1.0), cfg.settings.defaultMaintenanceMarginPct, cfg.params.takeProfitPct);
  }

  lemma RoomAtEntry(entry: real, inverse: real, m: real, tp: real)
    ensures entry * (1.0 - inverse + m) == entry - entry * (inverse - m)
    ensures entry * (1.0 + inverse - m) == entry + entry * (inverse - m)
    ensures entry * (1.0 + tp) == entry + entry * tp
    ensures entry * (1.0 - tp) == entry - entry * tp
  {
  }

  /** Whichever reason fires, the raw exit price is on the solvent side of the liquidation price;
      and a bar that triggers no exit closes on that side. */
  lemma ExitIsSolvent(cfg: BtConfig, p: BtPosition, row: SignalRow)
    requires MarginRun(cfg) && MarginPosition(cfg, p) && ValidRow(row)
    ensures var raw := if ChooseExit(p, row).Some? then ChooseExit(p, row).value.0 else row.close;
            OnSolventSide(p.side, raw, p.liquidationPrice)
  {
    TakeProfitIsSolvent(cfg, p);
    if p.liquidationPrice == 0.0 && p.side == Short {
      assert p.entryPrice == 0.0;
      RoomAtEntry(0.0, 0.0, 0.0, cfg.params.stopLossPct);
      RoomAtEntry(0.0, 0.0, 0.0, cfg.params.takeProfitPct);
    }
  }

  lemma LongFloor(entry: real, c: real, i: real, m: real, sl: real, raw: real, liq: real)
    requires 0.0 <= sl <= 1.0 && c == entry * i
    requires liq == entry * (1.0 - i + m) && raw >= liq
    ensures c + (raw * (1.0 - sl) - entry) >= m * entry - sl * liq
  {
    OrderBook.ScaleLe(1.0 - sl, liq, raw);
    assert liq == entry - c + m * entry;
    assert raw * (1.0 - sl) >= liq * (1.0 - sl);
    assert liq * (1.0 - sl) == liq - sl * liq;
  }

  lemma ShortFloor(entry: real, c: real, i: real, m: real, sl: real, raw: real, liq: real)
    requires 0.0 <= sl <= 1.0 && c == entry * i
    requires liq == entry * (1.0 + i - m) && raw <= liq
    ensures c - (raw * (1.0 + sl) - entry) >= m * entry - sl * liq
  {
    OrderBook.ScaleLe(1.0 + sl, raw, liq);
    assert liq == entry + c - m * entry;
    assert raw * (1.0 + sl) <= liq * (1.0 + sl);
    assert liq * (1.0 + sl) == liq + sl * liq;
  }

  /** A floor per unit is a floor per position. */
  lemma FloorPerPosition(q: real, c: real, gain: real, m: real, entry: real, sl: real, liq: real,
                         collateral: real, gross: real, floor: real)
    requires q >= 0.0 && c + gain >= m * entry - sl * liq
    requires collateral == q * c && gross == q * gain
    requires floor == m * (entry * q) - sl * (q * liq)
    ensures collateral + gross >= floor
  {
    OrderBook.ScaleLe(q, m * entry - sl * liq, c + gain);
    assert q * (c + gain) == collateral + gross;
    assert q * (m * entry - sl * liq) == floor;
  }

  lemma CollateralPerUnit(entry: real, q: real, l: real, i: real, c: real, collateral: real)
    requires l >= 1.0 && i == 1.0 / l && c == entry * i && collateral == entry * q / l
    ensures collateral == q * c
  {
    assert i * l == 1.0;
    assert collateral * l == entry * q;
    assert q * c * l == entry * q * (i * l);
    var d := collateral - q * c;
    assert d * l == 0.0;
  }

  lemma LongExitFloor(entry: real, q: real, l: real, i: real, m: real, sl: real, raw: real, liq: real,
                      fill: real, gross: real, collateral: real, floor: real)
    requires q >= 0.0 && 0.0 <= sl <= 1.0 && l >= 1.0 && i == 1.0 / l
    requires liq == entry * (1.0 - i + m) && raw >= liq && fill == raw * (1.0 - sl)
    requires gross == (fill - entry) * q && collateral == entry * q / l
    requires floor == m * (entry * q) - sl * (q * liq)
    ensures collateral + gross >= floor
  {
    var c := entry * i;
    LongFloor(entry, c, i, m, sl, raw, liq);
    CollateralPerUnit(entry, q, l, i, c, collateral);
    FloorPerPosition(q, c, fill - entry, m, entry, sl, liq, collateral, gross, floor);
  }

  lemma ShortExitFloor(entry: real, q: real, l: real, i: real, m: real, sl: real, raw: real, liq: real,
                       fill: real, gross: real, collateral: real, floor: real)
    requires q >= 0.0 && 0.0 <= sl <= 1.0 && l >= 1.0 && i == 1.0 / l
    requires liq == entry * (1.0 + i - m) && raw <= liq && fill == raw * (1.0 + sl)
    requires gross == -1.0 * (fill - entry) * q && collateral == entry * q / l
    requires floor == m * (entry * q) - sl * (q * liq)
    ensures collateral + gross >= floor
  {
    var c := entry * i;
    ShortFloor(entry, c, i, m, sl, raw, liq);
    CollateralPerUnit(entry, q, l, i, c, collateral);
    FloorPerPosition(q, c, entry - fill, m, entry, sl, liq, collateral, gross, floor);
  }

  /** A solvent raw price bounds what the trade can lose. */
  lemma SolventExitIsBounded(cfg: BtConfig, p: BtPosition, raw: real, reason: ExitReason, time: int)
    requires MarginRun(cfg) && MarginPosition(cfg, p)
    requires OnSolventSide(p.side, raw, p.liquidationPrice)
    ensures var fill := SimulateFill(cfg, raw, p.quantity, ExitSide(p.side), time).value;
            LossIsBounded(cfg, TradeOf(cfg, p, fill, reason, time))
  {
    hide CalculateFee, StopPrice, TakeProfitPrice, ExitFee, LossIsBounded;
    var fill := SimulateFill(cfg, raw, p.quantity, ExitSide(p.side), time).value;
    if p.side == Long {
      LongFloorIsKept(cfg, TradeOf(cfg, p, fill, reason, time), raw);
    } else {
      ShortFloorIsKept(cfg, TradeOf(cfg, p, fill, reason, time), raw);
    }
  }

  lemma LongFloorIsKept(cfg: BtConfig, t: BtTrade, raw: real)
    requires t.side == Long && cfg.itype == Perpetual && 0.0 <= BpsToFraction(cfg.slippageBps) <= 1.0
    requires t.quantity > 0.0 && t.leverage == cfg.leverage && raw >= LiquidationPrice(cfg, Long, t.entryPrice)
    requires t.exitPrice == ApplySlippage(raw, ExitSide(Long), cfg.slippageBps)
    requires t.grossPnl == Direction(Long) * (t.exitPrice - t.entryPrice) * t.quantity
    ensures LossIsBounded(cfg, t)
  {
    var sl, m, l := BpsToFraction(cfg.slippageBps), cfg.settings.defaultMaintenanceMarginPct, Max(t.leverage, 1.0);
    var liq := LiquidationPrice(cfg, Long, t.entryPrice);
    assert l >= 1.0;
    hide BpsToFraction, Max;
    LongExitFloor(t.entryPrice, t.quantity, l, 1.0 / l, m, sl, raw, liq, t.exitPrice, t.grossPnl, CollateralOf(t),
                  m * (t.entryPrice * t.quantity) - sl * (t.quantity * liq));
  }

  lemma ShortFloorIsKept(cfg: BtConfig, t: BtTrade, raw: real)
    requires t.side == Short && cfg.itype == Perpetual && 0.0 <= BpsToFraction(cfg.slippageBps) <= 1.0
    requires t.quantity > 0.0 && t.leverage == cfg.leverage && raw <= LiquidationPrice(cfg, Short, t.entryPrice)
    requires t.exitPrice == ApplySlippage(raw, ExitSide(Short), cfg.slippageBps)
    requires t.grossPnl == Direction(Short) * (t.exitPrice - t.entryPrice) * t.quantity
    ensures LossIsBounded(cfg, t)
  {
    var sl, m, l := BpsToFraction(cfg.slippageBps), cfg.settings.defaultMaintenanceMarginPct, Max(t.leverage, 1.0);
    var liq := LiquidationPrice(cfg, Short, t.entryPrice);
    assert l >= 1.0;
    hide BpsToFraction, Max;
    ShortExitFloor(t.entryPrice, t.quantity, l, 1.0 / l, m, sl, raw, liq, t.exitPrice, t.grossPnl, CollateralOf(t),
                  m * (t.entryPrice * t.quantity) - sl * (t.quantity * liq));
  }

  /** Trades held past their entry bar are bounded, and a position held past its entry bar has the
      last close on the solvent side. */
  ghost predicate Bounded(cfg: BtConfig, s: BtState, now: int, close: real) {
    && (forall t :: t in s.trades && t.entryTime < t.exitTime ==> LossIsBounded(cfg, t))
    && (s.position.Some? ==>
          var p := s.position.value;
          && MarginPosition(cfg, p)
          && p.entryTime <= now
          && (p.entryTime < now ==> OnSolventSide(p.side, close, p.liquidationPrice)))
  }

  lemma EntryIsMargin(cfg: BtConfig, s: BtState, row: SignalRow)
    requires MarginRun(cfg) && ValidRow(row) && s.position.None? && TryEnter(cfg, s, row).Success?
    ensures var entered := TryEnter(cfg, s, row).value;
            entered.position.Some? ==>
              MarginPosition(cfg, entered.position.value) && entered.position.value.entryTime == row.timestamp
    ensures TryEnter(cfg, s, row).value.trades == s.trades
  {
    NonNegativeProduct(row.close, 1.0 + BpsToFraction(cfg.slippageBps));
    NonNegativeProduct(row.close, 1.0 - BpsToFraction(cfg.slippageBps));
    hide CalculateFee, StopPrice, TakeProfitPrice, LiquidationPrice, EntryQuantity, UpfrontCost, Notional;
  }

  lemma BarIsBounded(cfg: BtConfig, s: BtState, row: SignalRow, before: int, close: real)
    requires MarginRun(cfg) && ValidRow(row) && before < row.timestamp
    requires Bounded(cfg, s, before, close) && Bar(cfg, s, row).Success?
    ensures Bounded(cfg, Bar(cfg, s, row).value, row.timestamp, row.close)
  {
    var funded := ChargeFunding(cfg, s, row);
    var exited := TryExit(cfg, funded, row).value;
    if funded.position.Some? {
      var p := funded.position.value;
      assert MarginPosition(cfg, p) && p.entryTime < row.timestamp;
      ExitIsSolvent(cfg, p, row);
      if ChooseExit(p, row).Some? {
        var (raw, reason) := ChooseExit(p, row).value;
        SolventExitIsBounded(cfg, p, raw, reason, row.timestamp);
      }
    }
    assert Bounded(cfg, exited, row.timestamp, row.close);
    if exited.position.None? {
      EntryIsMargin(cfg, exited, row);
    }
  }

  lemma {:induction false} ReplayIsBounded(cfg: BtConfig, rows: seq<SignalRow>)
    requires MarginRun(cfg) && ValidRows(rows) && Increasing(rows)
    requires rows != [] && Replay(cfg, rows).Success?
    ensures Bounded(cfg, Replay(cfg, rows).value, rows[|rows| - 1].timestamp, rows[|rows| - 1].close)
  {
    var n := |rows| - 1;
    if n > 0 {
      assert rows[..n][n - 1] == rows[n - 1];
      ReplayIsBounded(cfg, rows[..n]);
      BarIsBounded(cfg, Replay(cfg, rows[..n]).value, rows[n], rows[n - 1].timestamp, rows[n - 1].close);
    } else {
      BarIsBounded(cfg, Start(cfg), rows[0], rows[0].timestamp - 1, rows[0].close);
    }
  }

  /** In a candle-mode perpetual run over valid bars, no trade held past its entry bar loses more
      than its margin, the maintenance part excepted, beyond the slippage of the closing fill. */
  lemma IsolatedMarginLossBound(cfg: BtConfig, rows: seq<SignalRow>)
    requires MarginRun(cfg) && ValidRows(rows) && Increasing(rows)
    requires Backtested(cfg, rows).Success?
    ensures forall t :: t in Backtested(cfg, rows).value.trades && t.entryTime < t.exitTime ==> LossIsBounded(cfg, t)
  {
    if rows != [] {
      ReplayIsBounded(cfg, rows);
      var s, last := Replay(cfg, rows).value, rows[|rows| - 1];
      if s.position.Some? && s.position.value.entryTime < last.timestamp {
        SolventExitIsBounded(cfg, s.position.value, last.close, EndOfTest, last.timestamp);
      }
    }
  }
}
