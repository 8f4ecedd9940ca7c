/** Quantities stay whole lots, so that a position can be closed by one order. */
module RunLots {
  import opened Common
  import opened Config
  import opened Fees
  import opened Precision
  import opened Ledger
  import opened PaperExchange
  import opened Instruments
  import opened Risk
  import opened Execution
  import opened Evolution
  import opened LedgerLaws
  import opened Runs
  import opened RunBooks
  import OrderBook

  /** The lot size of each market; zero or less where quantities are not restricted. */
  type Lots = (string, InstrumentType) -> real

  ghost predicate WholeLots(quantity: real, lot: real) {
    lot > 0.0 ==> IsMultiple(quantity, lot)
  }

  ghost predicate LotBook(book: OrderBook.Book, lot: real) {
    && (forall l :: l in book.bids ==> WholeLots(l.size, lot))
    && (forall l :: l in book.asks ==> WholeLots(l.size, lot))
  }

  /** The instrument has the market's lot size, and the sizes on the book are whole lots. */
  ghost predicate LotEnv(env: Env, lot: real) {
    && (env.instrument.Some? ==> env.instrument.value.lotSize == lot)
    && (env.book.Some? ==> LotBook(env.book.value, lot))
  }

  // ---------- Arithmetic of multiples ----------

  lemma ZeroIsMultiple(lot: real)
    ensures IsMultiple(0.0, lot)
  {
    assert Multiple(0, lot) == 0.0;
  }

  lemma SumIsMultiple(a: real, b: real, lot: real)
    requires IsMultiple(a, lot) && IsMultiple(b, lot)
    ensures IsMultiple(a + b, lot) && IsMultiple(a - b, lot)
  {
    var k: int :| a == Multiple(k, lot);
    var l: int :| b == Multiple(l, lot);
    assert a + b == Multiple(k + l, lot);
    assert a - b == Multiple(k - l, lot);
  }

  lemma {:induction false} DepthIsWholeLots(levels: seq<OrderBook.Level>, lot: real)
    requires forall l :: l in levels ==> WholeLots(l.size, lot)
    ensures WholeLots(OrderBook.Depth(levels), lot)
  {
    ZeroIsMultiple(lot);
    if levels != [] && lot > 0.0 {
      DepthIsWholeLots(levels[1..], lot);
      assert levels[0] in levels;
      SumIsMultiple(OrderBook.Available(levels[0]), OrderBook.Depth(levels[1..]), lot);
    }
  }

  /** A positive multiple of a lot above the dust limit is above the dust limit. */
  lemma PositiveMultipleIsLarge(quantity: real, lot: real)
    requires lot > DUST && IsMultiple(quantity, lot) && quantity > 0.0
    ensures quantity > DUST
  {
    var k: int :| quantity == Multiple(k, lot);
    MultipleOrder(0, k, lot);
    MultipleOrder(k, 1, lot);
  }

  // ---------- Fills ----------

  /** An answer to a request for whole lots fills whole lots. */
  lemma FillsAreWholeLots(fees: FeeSchedule, request: OrderRequest, id: nat, lot: real)
    requires WholeLots(request.quantity, lot) && request.quantity > 0.0
    requires request.book.Some? ==> LotBook(request.book.value, lot)
    ensures WholeLots(Answer(fees, request, id).filledQuantity, lot)
  {
    ZeroIsMultiple(lot);
    if request.book.Some? {
      DepthFillsAreWholeLots(request, request.book.value, lot);
    }
    hide DepthOutcome;
  }

  lemma DepthFillsAreWholeLots(request: OrderRequest, book: OrderBook.Book, lot: real)
    requires WholeLots(request.quantity, lot) && request.quantity > 0.0 && LotBook(book, lot)
    ensures WholeLots(DepthOutcome(request, book).filledQuantity, lot)
  {
    var levels := if request.side == Buy then book.asks else book.bids;
    var eligible := OrderBook.Eligible(request.side, OrElse(request.limitPrice, request.referencePrice), levels);
    ZeroIsMultiple(lot);
    DepthIsWholeLots(levels, lot);
    DepthIsWholeLots(eligible, lot);
    OrderBook.WalkFillsWhatTheBookHolds(levels, request.quantity);
    OrderBook.WalkFillsWhatTheBookHolds(eligible, request.quantity);
  }

  lemma NormalizedIsWholeLots(settings: Settings, instrument: Instrument, quantity: real, limitPrice: Option<real>,
                              referencePrice: real, leverage: real)
    requires NormalizeOrder(settings, Some(instrument), quantity, limitPrice, referencePrice, leverage).Success?
    ensures var order := NormalizeOrder(settings, Some(instrument), quantity, limitPrice, referencePrice, leverage).value;
            order.quantity > 0.0 && WholeLots(order.quantity, instrument.lotSize)
  {
    if instrument.lotSize > 0.0 {
      RoundedIsMultiple(quantity, instrument.lotSize);
    }
  }

  // ---------- Positions ----------

  /** The quantity of an open position is a positive number of whole lots; a closed one has no notional
      left, if a lot is above the dust limit. */
  ghost predicate LotSized(lots: Lots, p: PositionRow) {
    var lot := lots(p.key.symbol, p.key.itype);
    if p.status == Open then p.quantity > 0.0 && WholeLots(p.quantity, lot)
    else lot > DUST ==> p.entryNotional == 0.0
  }

  ghost predicate AllLotSized(lots: Lots, positions: seq<PositionRow>) {
    forall i :: 0 <= i < |positions| ==> LotSized(lots, positions[i])
  }

  ghost predicate LotsAboveDust(lots: Lots) {
    forall symbol, itype :: lots(symbol, itype) > DUST
  }

  ghost predicate ChangeIsLotSized(lots: Lots, change: Change) {
    match change
    case NoChange => true
    case Opened(row) => LotSized(lots, row)
    case Reduced(_, row, _) => LotSized(lots, row)
  }

  lemma EntryIsLotSized(lots: Lots, settings: Settings, w: World, a: EntryArgs, env: Env, at: int)
    requires LotEnv(env, lots(a.key.symbol, a.key.itype))
    ensures ChangeIsLotSized(lots, EntryChange(settings, w, a, env, at))
  {
    var (marked, prepared) := PrepareEntry(settings, w.tables, a, env);
    if prepared.Success? {
      var order := prepared.value;
      NormalizedIsWholeLots(settings, env.instrument.value, RequestedQuantity(settings, a, marked.portfolio.lastEquity),
                            a.limitPrice, a.referencePrice, SelectedLeverage(settings, a));
      hide NormalizeOrder, Decide, Answer, RequestedQuantity;
      FillsAreWholeLots(FeesOf(settings), EntryRequest(settings, a, env, order), w.exchange.nextId,
                        lots(a.key.symbol, a.key.itype));
    }
  }

  lemma ExitIsLotSized(lots: Lots, p: PositionRow, x: ExitFill, fees: real, quantity: real)
    requires LotSized(lots, p) && p.status == Open && x.filled > 0.0
    requires WholeLots(x.filled, lots(p.key.symbol, p.key.itype))
    ensures LotSized(lots, ExitedPosition(p, x, fees, quantity))
  {
    hide GrossPnl, ExitRealized, CollateralRelease, FundingAlloc;
    var lot := lots(p.key.symbol, p.key.itype);
    if lot > 0.0 {
      SumIsMultiple(p.quantity, CloseQuantity(p, x), lot);
    }
    var remaining := RemainingQuantity(p, x);
    if lot > DUST && remaining > 0.0 {
      PositiveMultipleIsLarge(remaining, lot);
    }
    NothingLeft(p.avgEntryPrice);
  }

  lemma NothingLeft(price: real)
    ensures Notional(price, 0.0) == 0.0
  {
  }

  lemma CloseIsLotSized(lots: Lots, settings: Settings, w: World, id: nat, c: CloseArgs, env: Env, at: int)
    requires id < |w.tables.positions| && LotSized(lots, w.tables.positions[id])
    requires LotEnv(env, lots(w.tables.positions[id].key.symbol, w.tables.positions[id].key.itype))
    ensures ChangeIsLotSized(lots, CloseChange(settings, w, id, c, env, at))
  {
    var p := w.tables.positions[id];
    var normalized := NormalizeOrder(settings, env.instrument, p.quantity, c.limitPrice, c.referencePrice, p.leverage);
    if p.status == Open && normalized.Success? {
      NormalizedIsWholeLots(settings, env.instrument.value, p.quantity, c.limitPrice, c.referencePrice, p.leverage);
      hide NormalizeOrder, Answer, ExitedPosition;
      var request := CloseRequest(settings, p, c, env, normalized.value);
      FillsAreWholeLots(FeesOf(settings), request, w.exchange.nextId, lots(p.key.symbol, p.key.itype));
      var report := Place(FeesOf(settings), w.exchange, request).1;
      if IsFill(report) {
        ExitIsLotSized(lots, p, ExitFillOf(c, report, at), EntryFees(w.tables.trades, id), EntryQuantity(w.tables.trades, id));
      }
    }
  }

  // ---------- Runs ----------

  /** Every action meets its market as it is: its lot size, and whole lots on the book. */
  ghost predicate LotAction(lots: Lots, w: World, action: Action) {
    match action
    case EvaluateCall(call, _) => LotEnv(call.env, lots(call.symbol, call.itype))
    case SubmitOther(args, env, _) => LotEnv(env, lots(args.key.symbol, args.key.itype))
    case CloseById(id, _, env, _) =>
      id < |w.tables.positions| ==>
        LotEnv(env, lots(w.tables.positions[id].key.symbol, w.tables.positions[id].key.itype))
    case _ => true
  }

  ghost predicate SameQuantities(a: seq<PositionRow>, b: seq<PositionRow>) {
    |a| == |b| && forall i :: 0 <= i < |a| ==>
      && a[i].key == b[i].key && a[i].status == b[i].status
      && a[i].quantity == b[i].quantity && a[i].entryNotional == b[i].entryNotional
  }

  lemma RemarkedIsSameQuantities(a: seq<PositionRow>, b: seq<PositionRow>)
    requires Remarked(a, b)
    ensures SameQuantities(a, b)
  {
    forall i | 0 <= i < |a|
      ensures a[i].key == b[i].key && a[i].status == b[i].status
      ensures a[i].quantity == b[i].quantity && a[i].entryNotional == b[i].entryNotional
    {
      assert Unmarked(a[i]) == Unmarked(b[i]);
    }
  }

  lemma ActionQuantities(settings: Settings, w: World, action: Action)
    ensures SameQuantities(Changed(w.tables.positions, ChangeOf(settings, w, action)), Apply(settings, w, action).tables.positions)
  {
    hide SubmitEntry, ClosePosition, Evaluate, EntryChange, EvaluationChange, CloseChange;
    var change, after := ChangeOf(settings, w, action), Apply(settings, w, action).tables.positions;
    match action
    case EvaluateCall(call, at) =>
      EvaluationEvolves(settings, w, call, at);
      RemarkedIsSameQuantities(Changed(w.tables.positions, change), after);
    case SubmitOther(args, env, at) =>
      EntryEvolves(settings, w, args, env, at);
      RemarkedIsSameQuantities(Changed(w.tables.positions, change), after);
    case CloseById(id, reference, env, at) =>
      if id < |w.tables.positions| {
        CloseEvolves(settings, w, id, MarketClose(ManualReference(w.tables.positions[id], reference), ManualExit), env, at);
        RemarkedIsSameQuantities(Changed(w.tables.positions, change), after);
      }
    case CancelById(orderId, _) =>
    case ChargeFunding(id, cost, at) =>
    case RepriceTo(prices, _) =>
      RecalculationRemarks(w.tables, prices);
      RemarkedIsSameQuantities(w.tables.positions, after);
  }

  lemma EvaluationIsLotSized(lots: Lots, settings: Settings, w: World, call: Call, at: int)
    requires AllLotSized(lots, w.tables.positions) && LotEnv(call.env, lots(call.symbol, call.itype))
    ensures ChangeIsLotSized(lots, EvaluationChange(settings, w, call, at))
  {
    hide EntryChange, CloseChange, LotEnv, CoolingDown;
    if call.frame != [] && SelectedSignalRow(settings, call).Some? {
      var row, open := SelectedSignalRow(settings, call).value, FindOpen(w.tables.positions, KeyOf(call));
      if open.Some? {
        var marked := MarkAtLatest(w, call);
        RecalculationRemarks(w.tables, map[call.symbol := call.frame[|call.frame| - 1].close]);
        RemarkedIsSameQuantities(w.tables.positions, marked.tables.positions);
        var exit := TriggeredExit(marked.tables.positions[open.value], row);
        if exit.Some? {
          CloseIsLotSized(lots, settings, marked, open.value, MarketClose(exit.value.0, exit.value.1), call.env, at);
        }
      } else {
        EntryIsLotSized(lots, settings, w, StrategyEntry(settings, call, row), call.env, at);
      }
    }
  }

  lemma ActionIsLotSized(lots: Lots, settings: Settings, w: World, action: Action)
    requires AllLotSized(lots, w.tables.positions) && LotAction(lots, w, action)
    ensures AllLotSized(lots, Apply(settings, w, action).tables.positions)
  {
    hide Apply, EntryChange, EvaluationChange, CloseChange, LotEnv;
    ActionQuantities(settings, w, action);
    match action
    case EvaluateCall(call, at) => EvaluationIsLotSized(lots, settings, w, call, at);
    case SubmitOther(args, env, at) => EntryIsLotSized(lots, settings, w, args, env, at);
    case CloseById(id, reference, env, at) =>
      if id < |w.tables.positions| {
        CloseIsLotSized(lots, settings, w, id,
          MarketClose(ManualReference(w.tables.positions[id], reference), ManualExit), env, at);
      }
    case _ =>
  }

  ghost predicate LotRun(lots: Lots, settings: Settings, actions: seq<Action>) {
    forall i :: 0 <= i < |actions| ==> LotAction(lots, Run(settings, actions[..i]), actions[i])
  }

  /** In every state of a run over books of whole lots, every open position holds a positive number
      of whole lots. */
  lemma {:induction false} EveryRunIsLotSized(lots: Lots, settings: Settings, actions: seq<Action>)
    requires LotRun(lots, settings, actions)
    ensures AllLotSized(lots, Run(settings, actions).tables.positions)
  {
    hide Apply, LotAction;
    if actions != [] {
      var n := |actions| - 1;
      forall i | 0 <= i < n
        ensures LotAction(lots, Run(settings, actions[..n][..i]), actions[..n][i])
      {
        assert actions[..n][..i] == actions[..i];
      }
      EveryRunIsLotSized(lots, settings, actions[..n]);
      ActionIsLotSized(lots, settings, Run(settings, actions[..n]), actions[n]);
    }
  }

  lemma {:induction false} NoAllowance(positions: seq<PositionRow>)
    requires forall p :: p in positions && p.status == Closed ==> p.entryNotional == 0.0
    ensures SumBy(positions, DustAllowance) == 0.0
  {
    if positions != [] {
      NoAllowance(positions[..|positions| - 1]);
    }
  }

  /** So with lots above the dust limit nothing is left behind by any close, and the equity identity
      holds exactly. */
  lemma EveryLotRunIsExact(lots: Lots, settings: Settings, actions: seq<Action>, prices: map<string, real>)
    requires LotsAboveDust(lots) && LotRun(lots, settings, actions) && SaneRun(settings, actions)
    ensures var r := Recalculate(Run(settings, actions).tables, prices);
            && (forall p :: p in r.positions && p.status == Closed ==> p.entryNotional == 0.0)
            && r.portfolio.lastEquity ==
               settings.paperStartingBalance + r.portfolio.realizedPnl + r.portfolio.unrealizedPnl - UnallocatedFees(r)
               + SumBy(r.trades, SpotFundingOf)
  {
    hide Run, Totals;
    EveryRunIsLotSized(lots, settings, actions);
    EquityOfEveryRun(settings, actions, prices);
    NoAllowance(Recalculate(Run(settings, actions).tables, prices).positions);
  }

  /** The close order of such a position asks for all of it: it is refused only below the minimum
      notional, and if it is filled completely it closes the position. */
  lemma OneOrderCloses(lots: Lots, settings: Settings, w: World, id: nat, c: CloseArgs, env: Env, at: int)
    requires id < |w.tables.positions| && w.tables.positions[id].status == Open
    requires LotSized(lots, w.tables.positions[id])
    requires env.instrument.Some? && LotEnv(env, lots(w.tables.positions[id].key.symbol, w.tables.positions[id].key.itype))
    ensures var p, instrument := w.tables.positions[id], env.instrument.value;
            var normalized := NormalizeOrder(settings, env.instrument, p.quantity, c.limitPrice, c.referencePrice, p.leverage);
            && (normalized.Success? <==>
                  instrument.minNotional == 0.0
                  || p.quantity * OrElse(NormalizePrice(instrument, c.limitPrice), c.referencePrice) >= instrument.minNotional)
            && (normalized.Success? ==> normalized.value.quantity == p.quantity)
            && (CloseReport(settings, w, id, c, env).Some? && CloseReport(settings, w, id, c, env).value.status == Filled ==>
                  ClosePosition(settings, w, id, c, env, at).0.tables.positions[id].status == Closed)
  {
    hide Place, ClosePosition;
    var p, instrument := w.tables.positions[id], env.instrument.value;
    var lot := lots(p.key.symbol, p.key.itype);
    assert NormalizeQuantity(instrument, p.quantity) == p.quantity by {
      if lot > 0.0 {
        var k: int :| p.quantity == Multiple(k, lot);
        LotMultiplesAreFixed(instrument, k);
      }
    }
    hide NormalizeQuantity;
    var report := CloseReport(settings, w, id, c, env);
    if report.Some? && report.value.status == Filled {
      var order := NormalizeOrder(settings, env.instrument, p.quantity, c.limitPrice, c.referencePrice, p.leverage).value;
      FullFillCloses(settings, w, id, c, env, at, order);
    }
  }

  lemma FullFillCloses(settings: Settings, w: World, id: nat, c: CloseArgs, env: Env, at: int, order: NormalizedOrder)
    requires id < |w.tables.positions| && w.tables.positions[id].status == Open
    requires w.tables.positions[id].quantity > 0.0 && order.quantity == w.tables.positions[id].quantity
    requires var p := w.tables.positions[id];
             NormalizeOrder(settings, env.instrument, p.quantity, c.limitPrice, c.referencePrice, p.leverage) == Success(order)
    requires CloseReport(settings, w, id, c, env).value.status == Filled
    ensures ClosePosition(settings, w, id, c, env, at).0.tables.positions[id].status == Closed
  {
    var p := w.tables.positions[id];
    var request := CloseRequest(settings, p, c, env, order);
    ReportsAddUp(FeesOf(settings), request, w.exchange.nextId);
    hide NormalizeOrder, Answer;
    var report := Place(FeesOf(settings), w.exchange, request).1;
    assert IsFill(report) && report.filledQuantity == p.quantity;
    CloseEvolves(settings, w, id, c, env, at);
    var t := w.tables;
    var after := ClosePosition(settings, w, id, c, env, at).0.tables;
    var row := ExitedPosition(p, ExitFillOf(c, report, at), EntryFees(t.trades, id), EntryQuantity(t.trades, id));
    assert row.status == Closed;
    assert Unmarked(Changed(t.positions, CloseChange(settings, w, id, c, env, at))[id]) == Unmarked(after.positions[id]);
  }
}
