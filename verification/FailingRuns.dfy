/** Runs on which the code does not do what the laws promise in general: where the conditions of the
    laws fail, so do their conclusions. */
module FailingRuns {
  import opened Common
  import opened Config
  import opened Ledger
  import opened LedgerLaws
  import opened PartialExits
  import opened Execution
  import opened Runs
  import opened RunBooks
  import opened Witnesses

  const COIN: Key := Key("m", "X", Spot)
  const FUTURE: Key := Key("m", "X", Perpetual)

  const SETTINGS: Settings := Roomy(1, 1, ["X"])

  lemma FirstPurchase(key: Key, at: int)
    requires key.symbol == "X"
    ensures var t := Run(SETTINGS, [Buys(key, at)]).tables;
            && t.positions == [EnteredPosition(Fill(key, 1.0, at))]
            && t.trades == [EntryTrade(Fill(key, 1.0, at), 0, 0)]
  {
    assert IsRoomy(SETTINGS);
    NothingYetIsCalm(SETTINGS);
    RunStep(SETTINGS, [], Buys(key, at));
    assert [] + [Buys(key, at)] == [Buys(key, at)];
    PurchaseBuysOne(SETTINGS, key);
    EntryGoesThrough(SETTINGS, Run(SETTINGS, []), Purchase(key), 1.0, at);
    hide SubmitEntry, Run, Fill, EnteredPosition, EntryTrade, BuysUnits, Calm, IsRoomy;
  }

  /** The first position after a purchase and a funding charge. */
  lemma FundedPurchase(key: Key, cost: real, at: int)
    requires key.symbol == "X"
    ensures var t := Run(SETTINGS, [Buys(key, at), ChargeFunding(0, cost, at)]).tables;
            var p := EnteredPosition(Fill(key, 1.0, at)).(fundingCost := cost);
            && t.positions == [p]
            && t.trades == [EntryTrade(Fill(key, 1.0, at), 0, 0), FundingTrade(EnteredPosition(Fill(key, 1.0, at)), cost, 0, 0, at)]
  {
    hide Run, Apply, Buys, Fill, EnteredPosition, EntryTrade, FundingTrade;
    var charge := ChargeFunding(0, cost, at);
    RunStep(SETTINGS, [Buys(key, at)], charge);
    assert [Buys(key, at)] + [charge] == [Buys(key, at), charge];
    FirstPurchase(key, at);
    FreshRows(key, at);
    ChargedOnce(Run(SETTINGS, [Buys(key, at)]), cost, at, EnteredPosition(Fill(key, 1.0, at)), EntryTrade(Fill(key, 1.0, at), 0, 0));
  }

  lemma FreshRows(key: Key, at: int)
    ensures EnteredPosition(Fill(key, 1.0, at)).fundingCost == 0.0
    ensures EntryTrade(Fill(key, 1.0, at), 0, 0).positionId == EntryTrade(Fill(key, 1.0, at), 0, 0).orderId == 0
  {
  }

  lemma ChargedOnce(w: World, cost: real, at: int, p: PositionRow, x: TradeRow)
    requires w.tables.positions == [p] && w.tables.trades == [x] && x.positionId == x.orderId == 0 && p.fundingCost == 0.0
    ensures var r := Apply(SETTINGS, w, ChargeFunding(0, cost, at)).tables;
            r.positions == [p.(fundingCost := cost)] && r.trades == [x, FundingTrade(p, cost, 0, 0, at)]
  {
    hide FundingTrade;
    assert LatestTradeOrder(w.tables.trades, 0) == Some(0);
  }

  lemma Sane(actions: seq<Action>)
    requires forall action :: action in actions && action.SubmitOther? ==>
               action.args.referencePrice == 100.0 && action.env == OPEN_MARKET
    requires forall action :: action in actions ==> !action.EvaluateCall?
    ensures SaneRun(SETTINGS, actions)
  {
  }

  // ---------- A funding charge to a spot position ----------

  function SpotFundingRun(at: int): seq<Action> {
    [Buys(COIN, at), ChargeFunding(0, 1.0, at), CloseById(0, Some(100.0), OPEN_MARKET, at)]
  }

  /** Buying a coin, charging funding to it and selling it leaves the cash where the law does not put it. */
  lemma SpotFundingIsNotConserved(at: int)
    ensures var t := Run(SETTINGS, SpotFundingRun(at)).tables;
            && SaneRun(SETTINGS, SpotFundingRun(at))
            && SumBy(t.trades, SpotFundingOf) == 1.0
            && CashBalance(t) + SumBy(t.positions, Locked) !=
               SETTINGS.paperStartingBalance + SumBy(t.trades, RealizedOf) - UnallocatedFees(t)
  {
    Sane(SpotFundingRun(at));
    ConservationOfEveryRun(SETTINGS, SpotFundingRun(at));
    var init := [Buys(COIN, at), ChargeFunding(0, 1.0, at)];
    assert init + [CloseById(0, Some(100.0), OPEN_MARKET, at)] == SpotFundingRun(at);
    RunStep(SETTINGS, init, CloseById(0, Some(100.0), OPEN_MARKET, at));
    hide Run, ClosePosition, CashBalance, UnallocatedFees, SumBy;
    FundedPurchase(COIN, 1.0, at);
    FundedSale(Run(SETTINGS, init), at);
  }

  lemma FundedSale(w: World, at: int)
    requires w.tables.positions == [EnteredPosition(Fill(COIN, 1.0, at)).(fundingCost := 1.0)]
    requires w.tables.trades ==
             [EntryTrade(Fill(COIN, 1.0, at), 0, 0), FundingTrade(EnteredPosition(Fill(COIN, 1.0, at)), 1.0, 0, 0, at)]
    ensures var after := Apply(SETTINGS, w, CloseById(0, Some(100.0), OPEN_MARKET, at));
            SumBy(after.tables.trades, SpotFundingOf) == 1.0
  {
    hide ClosePosition, Recalculate;
    CloseGoesThrough(SETTINGS, w, 0, ManualExit, at);
    var trades, after := w.tables.trades, Apply(SETTINGS, w, CloseById(0, Some(100.0), OPEN_MARKET, at)).tables;
    var sold := ExitTrade(w.tables.positions[0], Sold(ManualExit, at), EntryFees(trades, 0), EntryQuantity(trades, 0),
                          |w.tables.orders|, 0);
    MarkingKeepsTrades(RecordExit(w.tables.(orders := after.orders), 0, Sold(ManualExit, at), |w.tables.orders|));
    assert after.trades == trades + [sold];
    FundedSums(trades, sold);
  }

  lemma MarkingKeepsTrades(t: Tables)
    ensures Recalculate(t, map["X" := 100.0]).trades == t.trades
  {
  }

  lemma FundedSums(trades: seq<TradeRow>, sold: TradeRow)
    requires |trades| == 2 && SpotFundingOf(trades[0]) == SpotFundingOf(trades[1]) == 0.0 && SpotFundingOf(sold) == 1.0
    ensures SumBy(trades + [sold], SpotFundingOf) == 1.0
  {
    hide SpotFundingOf;
    SumByAppend(trades, sold, SpotFundingOf);
    assert trades == [] + [trades[0]] + [trades[1]];
    SumByAppend([] + [trades[0]], trades[1], SpotFundingOf);
    SumByAppend([], trades[0], SpotFundingOf);
  }

  // ---------- A pending funding credit ----------

  /** Buying a contract and receiving funding for it leaves a position that is worth more when it is closed
      at once than in two pieces. */
  lemma PendingCreditIsLost(at: int, o1: nat, o2: nat, o: nat)
    ensures var actions := [Buys(FUTURE, at), ChargeFunding(0, -1.0, at)];
            var t, sale := Run(SETTINGS, actions).tables, Sale(100.0, 0.0, ManualExit, at);
            && SaneRun(SETTINGS, actions)
            && TwoPieces(t, 0, sale, 0.25, 0.25) && t.positions[0].fundingCost == -1.0
            && !SameMoney(RecordExit(RecordExit(t, 0, FillOf(sale, 0.25), o1), 0, FillOf(sale, 0.25), o2),
                          RecordExit(t, 0, FillOf(sale, 0.5), o), 0)
  {
    hide Run, RecordExit, SameMoney, Books, EntryTrade, FundingTrade, FillOf;
    var actions := [Buys(FUTURE, at), ChargeFunding(0, -1.0, at)];
    Sane(actions);
    EveryRunKeepsBooks(SETTINGS, actions);
    FundedPurchase(FUTURE, -1.0, at);
    TwoPiecesAreOne(Run(SETTINGS, actions).tables, 0, Sale(100.0, 0.0, ManualExit, at), 0.25, 0.25, o1, o2, o);
  }

  // ---------- A price of zero ----------

  /** After a price of zero, recalculating without prices marks the position at its entry price again. */
  lemma ZeroMarkFallsBack(at: int)
    ensures var t := Run(SETTINGS, [Buys(FUTURE, at), RepriceTo(map["X" := 0.0], at)]).tables;
            Recalculate(t, map[]) != t
  {
    hide Run, Recalculate, EntryTrade;
    var reprice := RepriceTo(map["X" := 0.0], at);
    RunStep(SETTINGS, [Buys(FUTURE, at)], reprice);
    assert [Buys(FUTURE, at)] + [reprice] == [Buys(FUTURE, at), reprice];
    FirstPurchase(FUTURE, at);
    var before := Run(SETTINGS, [Buys(FUTURE, at)]).tables;
    RecalculationIsIdempotent(before, map["X" := 0.0]);
    MarkedAtZero(before, FUTURE, at);
  }

  lemma MarkedAtZero(t: Tables, key: Key, at: int)
    requires t.positions == [EnteredPosition(Fill(key, 1.0, at))] && key.symbol == "X"
    ensures var r := Recalculate(t, map["X" := 0.0]);
            r.positions != [] && r.positions[0] in r.positions && FallsBackToEntry(r.positions[0])
  {
    hide Totals;
  }
}
