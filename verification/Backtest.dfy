/** The bar-by-bar backtester (app/services/backtest_service.py). */
module Backtest {
  import opened Common
  import opened Config
  import opened Fees
  import opened Strategy
  import OrderBook

  datatype ExitReason = Liquidation | StopLoss | TakeProfit | StrategyExit | EndOfTest

  datatype BtPosition = BtPosition(
    entryTime: int,
    entryPrice: real,
    quantity: real,
    entryFee: real,
    entryNotional: real,
    collateral: real,
    leverage: real,
    side: PositionSide,
    fundingCost: real,
    stopLossPrice: real,
    takeProfitPrice: real,
    liquidationPrice: real)

  datatype BtTrade = BtTrade(
    entryTime: int,
    exitTime: int,
    side: PositionSide,
    leverage: real,
    entryPrice: real,
    exitPrice: real,
    quantity: real,
    grossPnl: real,
    netPnl: real,
    fees: real,
    fundingPaid: real,
    exitReason: ExitReason)

  datatype EquityPoint = EquityPoint(timestamp: int, equity: real)

  /** The arguments of a run. `snapshots` holds the order book recorded for a bar, if any. */
  datatype BtConfig = BtConfig(
    settings: Settings,
    params: StrategyParams,
    itype: InstrumentType,
    leverage: real,
    model: ExecutionModel,
    allowCandleFallback: bool,
    snapshots: map<int, OrderBook.Book>,
    feeBps: real,
    slippageBps: real)

  datatype BtState = BtState(
    balance: real,
    position: Option<BtPosition>,
    feesPaid: real,
    fundingPaid: real,
    liquidationCount: int,
    trades: seq<BtTrade>,
    curve: seq<EquityPoint>)

  datatype BtResponse = BtResponse(
    trades: seq<BtTrade>,
    curve: seq<EquityPoint>,
    feesPaid: real,
    fundingPaid: real,
    liquidationCount: int,
    endingBalance: real,
    endingEquity: real)

  datatype BtError = DepthSnapshotMissing

  type BtStep = Result<BtState, BtError>

  // ---------- One bar ----------

  function SimulateFill(cfg: BtConfig, price: real, quantity: real, side: OrderSide, timestamp: int)
    : Result<real, BtError>
  {
    var fromDepth: Option<real> :=
      if cfg.model == DepthModel && timestamp in cfg.snapshots
      then OrderBook.MarketFill(side, quantity, cfg.snapshots[timestamp]).averagePrice
      else None;
    if fromDepth.Some? then Success(fromDepth.value)
    else if cfg.model == DepthModel && !cfg.allowCandleFallback then Failure(DepthSnapshotMissing)
    else Success(ApplySlippage(price, side, cfg.slippageBps))
  }

  function EquityWithPosition(cfg: BtConfig, balance: real, position: Option<BtPosition>, mark: real): real {
    match position
    case None => balance
    case Some(p) =>
      if cfg.itype == Spot && p.side == Long then balance + p.quantity * mark
      else balance + p.collateral + Direction(p.side) * (mark - p.entryPrice) * p.quantity
  }

  /** A positive rate charges a long and credits a short. */
  function SignedFunding(p: BtPosition, row: SignalRow): real {
    row.fundingRate * p.entryNotional * Direction(p.side)
  }

  function ChargeFunding(cfg: BtConfig, s: BtState, row: SignalRow): BtState {
    if s.position.Some? && cfg.itype == Perpetual && row.fundingRate != 0.0 then
      var p := s.position.value;
      var signed := SignedFunding(p, row);
      s.(balance := s.balance - signed,
         position := Some(p.(fundingCost := p.fundingCost + signed)),
         fundingPaid := s.fundingPaid + signed)
    else s
  }

  /** The first exit that the bar triggers, with its raw price. */
  function ChooseExit(p: BtPosition, row: SignalRow): Option<(real, ExitReason)> {
    if p.liquidationPrice != 0.0 && p.side == Long && row.low <= p.liquidationPrice then
      Some((p.liquidationPrice, Liquidation))
    else if p.liquidationPrice != 0.0 && p.side == Short && row.high >= p.liquidationPrice then
      Some((p.liquidationPrice, Liquidation))
    else if p.side == Long && row.low <= p.stopLossPrice then Some((p.stopLossPrice, StopLoss))
    else if p.side == Short && row.high >= p.stopLossPrice then Some((p.stopLossPrice, StopLoss))
    else if p.side == Long && row.high >= p.takeProfitPrice then Some((p.takeProfitPrice, TakeProfit))
    else if p.side == Short && row.low <= p.takeProfitPrice then Some((p.takeProfitPrice, TakeProfit))
    else if ShouldExit(row, true, p.side) then Some((row.close, StrategyExit))
    else None
  }

  function GrossPnl(p: BtPosition, fill: real): real {
    Direction(p.side) * (fill - p.entryPrice) * p.quantity
  }

  function ExitFee(cfg: BtConfig, p: BtPosition, fill: real): real {
    CalculateFee(Notional(fill, p.quantity), cfg.feeBps)
  }

  /** What closing the whole position at a fill price pays into the balance. */
  function Proceeds(cfg: BtConfig, p: BtPosition, fill: real): real {
    if cfg.itype == Spot && p.side == Long then Notional(fill, p.quantity) - ExitFee(cfg, p, fill)
    else p.collateral + GrossPnl(p, fill) - ExitFee(cfg, p, fill)
  }

  function TradeOf(cfg: BtConfig, p: BtPosition, fill: real, reason: ExitReason, time: int): BtTrade {
    BtTrade(p.entryTime, time, p.side, p.leverage, p.entryPrice, fill, p.quantity, GrossPnl(p, fill),
            GrossPnl(p, fill) - p.entryFee - ExitFee(cfg, p, fill) - p.fundingCost,
            p.entryFee + ExitFee(cfg, p, fill), p.fundingCost, reason)
  }

  function Settle(cfg: BtConfig, s: BtState, p: BtPosition, fill: real, reason: ExitReason, time: int): BtState {
    s.(balance := s.balance + Proceeds(cfg, p, fill),
       position := None,
       feesPaid := s.feesPaid + ExitFee(cfg, p, fill),
       liquidationCount := s.liquidationCount + if reason == Liquidation then 1 else 0,
       trades := s.trades + [TradeOf(cfg, p, fill, reason, time)])
  }

  function TryExit(cfg: BtConfig, s: BtState, row: SignalRow): BtStep {
    if s.position.None? then Success(s)
    else
      var p := s.position.value;
      match ChooseExit(p, row)
      case None => Success(s)
      case Some((raw, reason)) =>
        match SimulateFill(cfg, raw, p.quantity, ExitSide(p.side), row.timestamp)
        case Failure(e) => Failure(e)
        case Success(fill) => Success(Settle(cfg, s, p, fill, reason, row.timestamp))
  }

  function StopPrice(side: PositionSide, entry: real, pct: real): real {
    if side == Short then entry * (1.0 + pct) else entry * (1.0 - pct)
  }

  function TakeProfitPrice(side: PositionSide, entry: real, pct: real): real {
    if side == Short then entry * (1.0 - pct) else entry * (1.0 + pct)
  }

  function LiquidationPrice(cfg: BtConfig, side: PositionSide, entry: real): real {
    var m := cfg.settings.defaultMaintenanceMarginPct;
    if cfg.itype != Perpetual then 0.0
    else if side == Short then entry * (1.0 + 1.0 / Max(cfg.leverage, 1.0) - m)
    else entry * (1.0 - 1.0 / Max(cfg.leverage, 1.0) + m)
  }

  function OpenedAt(cfg: BtConfig, side: PositionSide, quantity: real, fill: real, time: int): BtPosition {
    var notional := Notional(fill, quantity);
    BtPosition(time, fill, quantity, CalculateFee(notional, cfg.feeBps), notional,
               if cfg.itype == Perpetual then notional / Max(cfg.leverage, 1.0) else 0.0,
               cfg.leverage, side, 0.0,
               StopPrice(side, fill, cfg.params.stopLossPct),
               TakeProfitPrice(side, fill, cfg.params.takeProfitPct),
               LiquidationPrice(cfg, side, fill))
  }

  function UpfrontCost(cfg: BtConfig, p: BtPosition): real {
    (if cfg.itype == Spot && p.side == Long then p.entryNotional else p.collateral) + p.entryFee
  }

  function EntryQuantity(cfg: BtConfig, balance: real, price: real): real {
    PositionSize(cfg.params, balance, price, cfg.settings.maxRiskPerTrade,
                 cfg.settings.maxPositionNotionalPct, cfg.leverage)
  }

  function TryEnter(cfg: BtConfig, s: BtState, row: SignalRow): BtStep {
    var side := DesiredPositionSide(row);
    var quantity := EntryQuantity(cfg, s.balance, row.close);
    if s.position.Some? || !ShouldEnter(row, false) || (cfg.itype == Spot && side == Short) || quantity <= 0.0 then
      Success(s)
    else
      match SimulateFill(cfg, row.close, quantity, EntrySide(side), row.timestamp)
      case Failure(e) => Failure(e)
      case Success(fill) =>
        var p := OpenedAt(cfg, side, quantity, fill, row.timestamp);
        if UpfrontCost(cfg, p) > s.balance then Success(s)
        else Success(s.(balance := s.balance - UpfrontCost(cfg, p),
                        position := Some(p),
                        feesPaid := s.feesPaid + p.entryFee))
  }

  function MarkEquity(cfg: BtConfig, s: BtState, row: SignalRow): BtState {
    s.(curve := s.curve + [EquityPoint(row.timestamp, EquityWithPosition(cfg, s.balance, s.position, row.close))])
  }

  /** Funding, then at most one exit, then at most one entry, then one equity point. */
  function Bar(cfg: BtConfig, s: BtState, row: SignalRow): BtStep {
    match TryExit(cfg, ChargeFunding(cfg, s, row), row)
    case Failure(e) => Failure(e)
    case Success(exited) =>
      match TryEnter(cfg, exited, row)
      case Failure(e) => Failure(e)
      case Success(entered) => Success(MarkEquity(cfg, entered, row))
  }

  function Start(cfg: BtConfig): BtState {
    BtState(cfg.settings.paperStartingBalance, None, 0.0, 0.0, 0, [], [])
  }

  function Replay(cfg: BtConfig, rows: seq<SignalRow>): BtStep {
    if rows == [] then Success(Start(cfg))
    else
      match Replay(cfg, rows[..|rows| - 1])
      case Failure(e) => Failure(e)
      case Success(s) => Bar(cfg, s, rows[|rows| - 1])
  }

  /** A position that is still open after the last bar is closed at its close. */
  function CloseOut(cfg: BtConfig, s: BtState, last: SignalRow): BtStep {
    match s.position
    case None => Success(s)
    case Some(p) =>
      match SimulateFill(cfg, last.close, p.quantity, ExitSide(p.side), last.timestamp)
      case Failure(e) => Failure(e)
      case Success(fill) =>
        var closed := Settle(cfg, s, p, fill, EndOfTest, last.timestamp);
        var n := |closed.curve|;
        Success(if n == 0 then closed
                else closed.(curve := closed.curve[n - 1 := EquityPoint(last.timestamp, closed.balance)]))
  }

  function Response(s: BtState): BtResponse {
    BtResponse(s.trades, s.curve, s.feesPaid, s.fundingPaid, s.liquidationCount, s.balance, s.balance)
  }

  function Backtested(cfg: BtConfig, rows: seq<SignalRow>): Result<BtResponse, BtError> {
    match Replay(cfg, rows)
    case Failure(e) => Failure(e)
    case Success(s) =>
      if rows == [] then Success(Response(s))
      else
        match CloseOut(cfg, s, rows[|rows| - 1])
        case Failure(e) => Failure(e)
        case Success(closed) => Success(Response(closed))
  }

  // ---------- The loop ----------

  /** The variables of a run in progress. */
  class BacktestRun {
    const cfg: BtConfig
    var balance: real
    var position: Option<BtPosition>
    var feesPaid: real
    var fundingPaid: real
    var liquidationCount: int
    var trades: seq<BtTrade>
    var curve: seq<EquityPoint>

    ghost function State(): BtState
      reads this
    {
      BtState(balance, position, feesPaid, fundingPaid, liquidationCount, trades, curve)
    }

    constructor (cfg: BtConfig)
      ensures this.cfg == cfg && State() == Start(cfg)
    {
      this.cfg := cfg;
      balance := cfg.settings.paperStartingBalance;
      position := None;
      feesPaid, fundingPaid, liquidationCount := 0.0, 0.0, 0;
      trades, curve := [], [];
    }

    method ChargeFundingOn(row: SignalRow)
      modifies this
      ensures State() == ChargeFunding(cfg, old(State()), row)
      ensures curve == old(curve)
    {
      if position.Some? && cfg.itype == Perpetual && row.fundingRate != 0.0 {
        var signed := SignedFunding(position.value, row);
        balance := balance - signed;
        position := Some(position.value.(fundingCost := position.value.fundingCost + signed));
        fundingPaid := fundingPaid + signed;
      }
    }

    method Close(raw: real, reason: ExitReason, time: int) returns (failed: Option<BtError>)
      requires position.Some?
      modifies this
      ensures curve == old(curve)
      ensures var p := old(position).value;
              match SimulateFill(cfg, raw, p.quantity, ExitSide(p.side), time)
              case Failure(e) => failed == Some(e) && State() == old(State())
              case Success(fill) => failed == None && State() == Settle(cfg, old(State()), p, fill, reason, time)
    {
      var p := position.value;
      var filled := SimulateFill(cfg, raw, p.quantity, ExitSide(p.side), time);
      if filled.Failure? {
        return Some(filled.error);
      }
      if reason == Liquidation {
        liquidationCount := liquidationCount + 1;
      }
      balance := balance + Proceeds(cfg, p, filled.value);
      feesPaid := feesPaid + ExitFee(cfg, p, filled.value);
      trades := trades + [TradeOf(cfg, p, filled.value, reason, time)];
      position := None;
      failed := None;
    }

    method ExitOn(row: SignalRow) returns (failed: Option<BtError>)
      modifies this
      ensures match TryExit(cfg, old(State()), row)
              case Failure(e) => failed == Some(e)
              case Success(s) => failed == None && State() == s
      ensures curve == old(curve)
    {
      failed := None;
      if position.Some? {
        var exit := ChooseExit(position.value, row);
        if exit.Some? {
          failed := Close(exit.value.0, exit.value.1, row.timestamp);
        }
      }
    }

    method EnterOn(row: SignalRow) returns (failed: Option<BtError>)
      modifies this
      ensures match TryEnter(cfg, old(State()), row)
              case Failure(e) => failed == Some(e)
              case Success(s) => failed == None && State() == s
      ensures curve == old(curve)
    {
      failed := None;
      if position.None? && ShouldEnter(row, false) {
        var side := DesiredPositionSide(row);
        if cfg.itype == Spot && side == Short {
          return;
        }
        var quantity := EntryQuantity(cfg, balance, row.close);
        if quantity > 0.0 {
          var filled := SimulateFill(cfg, row.close, quantity, EntrySide(side), row.timestamp);
          if filled.Failure? {
            return Some(filled.error);
          }
          var entered := OpenedAt(cfg, side, quantity, filled.value, row.timestamp);
          var upfrontCost := UpfrontCost(cfg, entered);
          if upfrontCost <= balance {
            balance := balance - upfrontCost;
            feesPaid := feesPaid + entered.entryFee;
            position := Some(entered);
          }
        }
      }
    }

    method OnBar(row: SignalRow) returns (failed: Option<BtError>)
      modifies this
      ensures match Bar(cfg, old(State()), row)
              case Failure(e) => failed == Some(e)
              case Success(s) => failed == None && State() == s
      ensures failed == None ==> |curve| == old(|curve|) + 1
    {
      ChargeFundingOn(row);
      failed := ExitOn(row);
      if failed.None? {
        failed := EnterOn(row);
      }
      if failed.None? {
        MarkEquityOn(row);
      }
    }

    method MarkEquityOn(row: SignalRow)
      modifies this
      ensures State() == MarkEquity(cfg, old(State()), row)
    {
      curve := curve + [EquityPoint(row.timestamp, EquityWithPosition(cfg, balance, position, row.close))];
    }
  }

  method RunBacktest(cfg: BtConfig, rows: seq<SignalRow>) returns (r: Result<BtResponse, BtError>)
    ensures r == Backtested(cfg, rows)
  {
    var run := new BacktestRun(cfg);
    for i := 0 to |rows|
      invariant run.cfg == cfg && fresh(run)
      invariant Replay(cfg, rows[..i]) == Success(run.State())
      invariant |run.curve| == i
    {
      var row := rows[i];
      assert rows[..i + 1][..i] == rows[..i];
      var failed := run.OnBar(row);
      if failed.Some? {
        ReplayStopsAtFailure(cfg, rows, i + 1);
        return Failure(failed.value);
      }
    }
    assert rows[..|rows|] == rows;
    if run.position.Some? && rows != [] {
      var last := rows[|rows| - 1];
      var failed := run.Close(last.close, EndOfTest, last.timestamp);
      if failed.Some? {
        return Failure(failed.value);
      }
      run.curve := run.curve[|run.curve| - 1 := EquityPoint(last.timestamp, run.balance)];
    }
    r := Success(BtResponse(run.trades, run.curve, run.feesPaid, run.fundingPaid,
                            run.liquidationCount, run.balance, run.balance));
  }

  /** A run that fails on a prefix fails in the same way on the whole. */
  lemma {:induction false} ReplayStopsAtFailure(cfg: BtConfig, rows: seq<SignalRow>, n: nat)
    requires n <= |rows|
    requires Replay(cfg, rows[..n]).Failure?
    ensures Replay(cfg, rows) == Replay(cfg, rows[..n])
  {
    if n == |rows| {
      assert rows[..n] == rows;
    } else {
      assert rows[..|rows| - 1][..n] == rows[..n];
      ReplayStopsAtFailure(cfg, rows[..|rows| - 1], n);
    }
  }
}
