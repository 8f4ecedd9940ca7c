/** A backtest of the breakout strategy never revises its past when more bars arrive. */
module Causality {
  import opened Strategy
  import opened Backtest
  import Breakout
  import BacktestLaws
  import BreakoutLaws

  lemma BarExtends(cfg: BtConfig, s: BtState, row: SignalRow)
    requires Bar(cfg, s, row).Success?
    ensures s.trades <= Bar(cfg, s, row).value.trades
    ensures s.curve <= Bar(cfg, s, row).value.curve
  {
    hide SimulateFill, TradeOf, Proceeds, ExitFee, ChooseExit, EntryQuantity, OpenedAt, UpfrontCost, EquityWithPosition;
  }

  lemma {:induction false} ReplayExtends(cfg: BtConfig, rows: seq<SignalRow>, n: nat)
    requires n <= |rows| && Replay(cfg, rows).Success?
    ensures Replay(cfg, rows[..n]).Success?
    ensures Replay(cfg, rows[..n]).value.trades <= Replay(cfg, rows).value.trades
    ensures Replay(cfg, rows[..n]).value.curve <= Replay(cfg, rows).value.curve
  {
    hide Bar;
    if n == |rows| {
      assert rows[..n] == rows;
    } else {
      var m := |rows| - 1;
      assert rows[..m][..n] == rows[..n];
      BarExtends(cfg, Replay(cfg, rows[..m]).value, rows[m]);
      ReplayExtends(cfg, rows[..m], n);
    }
  }

  /** The trades and the equity points that a test of the first n bars has recorded when those bars
      are over are the first ones that a test of the whole series records: signals and fills alike
      depend on nothing that lies ahead. */
  lemma PastIsNotRevised(cfg: BtConfig, params: Breakout.Params, bars: seq<Breakout.Candle>, n: nat,
                         early: seq<SignalRow>, late: seq<SignalRow>)
    requires Breakout.ValidParams(params) && Breakout.InOrder(bars) && n <= |bars|
    requires early == Breakout.GenerateSignals(params, bars[..n]) && late == Breakout.GenerateSignals(params, bars)
    ensures Replay(cfg, late).Success? ==>
              && Replay(cfg, early).Success?
              && Replay(cfg, early).value.trades <= Replay(cfg, late).value.trades
              && Replay(cfg, early).value.curve <= Replay(cfg, late).value.curve
              && |Replay(cfg, early).value.curve| == n
  {
    if Replay(cfg, late).Failure? { return; }
    hide Replay, Breakout.GenerateSignals, Breakout.InOrder, Breakout.ValidParams;
    BreakoutLaws.NoLookAhead(params, bars, n);
    ReplayExtends(cfg, late, n);
    BacktestLaws.ReplayConserves(cfg, early);
  }
}
