/** The registry of resting orders agrees with the orders table in every state of a run. */
module RunRegistry {
  import opened Common
  import opened Config
  import opened Ledger
  import opened PaperExchange
  import opened Instruments
  import opened Risk
  import opened Execution
  import opened Runs

  /** A limit order that is still waiting for a fill. */
  predicate IsResting(o: OrderRow) {
    o.orderType == Limit && (o.status == New || o.status == PartiallyFilled)
  }

  ghost predicate HasResting(orders: seq<OrderRow>, id: nat) {
    exists i :: 0 <= i < |orders| && orders[i].clientId == Some(id) && IsResting(orders[i])
  }

  /** Client ids are distinct and already issued, resting orders have one, and the registry holds
      exactly the ids of the resting orders. */
  ghost predicate Registered(orders: seq<OrderRow>, ex: ExchangeState) {
    && (forall i :: 0 <= i < |orders| && orders[i].clientId.Some? ==> orders[i].clientId.value < ex.nextId)
    && (forall i, j :: 0 <= i < j < |orders| && orders[i].clientId.Some? ==> orders[i].clientId != orders[j].clientId)
    && (forall i :: 0 <= i < |orders| && IsResting(orders[i]) ==> orders[i].clientId.Some?)
    && (forall id :: id in ex.openOrders <==> HasResting(orders, id))
  }

  lemma ResultsOfAppend(orders: seq<OrderRow>, o: OrderRow, id: nat)
    ensures HasResting(orders + [o], id) <==> HasResting(orders, id) || (o.clientId == Some(id) && IsResting(o))
  {
    if HasResting(orders, id) {
      var i :| 0 <= i < |orders| && orders[i].clientId == Some(id) && IsResting(orders[i]);
      assert (orders + [o])[i] == orders[i];
    }
    if o.clientId == Some(id) && IsResting(o) {
      assert (orders + [o])[|orders|] == o;
    }
  }

  /** Persisting the report of a placed order keeps the registry in step: the order rests in one
      exactly when it rests in the other. */
  lemma PlacementRegisters(fees: FeeSchedule, orders: seq<OrderRow>, ex: ExchangeState, request: OrderRequest, o: OrderRow)
    requires Registered(orders, ex)
    requires var report := Place(fees, ex, request).1;
             o.clientId == Some(report.clientId) && o.orderType == request.orderType && o.status == report.status
    ensures Registered(orders + [o], Place(fees, ex, request).0)
  {
    hide OrElse, DepthOutcome, CandlePrice;
    var (ex', report) := Place(fees, ex, request);
    assert report.clientId == ex.nextId;
    forall id
      ensures id in ex'.openOrders <==> HasResting(orders + [o], id)
    {
      ResultsOfAppend(orders, o, id);
    }
  }

  lemma UnplacedRegisters(orders: seq<OrderRow>, ex: ExchangeState, o: OrderRow)
    requires Registered(orders, ex) && o.clientId == None && !IsResting(o)
    ensures Registered(orders + [o], ex)
  {
    forall id
      ensures id in ex.openOrders <==> HasResting(orders + [o], id)
    {
      ResultsOfAppend(orders, o, id);
    }
  }

  lemma EntryRegisters(settings: Settings, w: World, a: EntryArgs, env: Env, at: int)
    requires Registered(w.tables.orders, w.exchange)
    ensures var after := SubmitEntry(settings, w, a, env, at).0;
            Registered(after.tables.orders, after.exchange)
  {
    hide Place, Registered, Decide, NormalizeOrder, EnteredPosition, EntryTrade, IsFill;
    var (marked, prepared) := PrepareEntry(settings, w.tables, a, env);
    assert marked.orders == w.tables.orders;
    if prepared.Success? {
      var order := prepared.value;
      var (checked, decision) := EvaluateEntry(settings, marked, ProposalOf(settings, a, env, order), at);
      assert checked.orders == w.tables.orders;
      if decision.Approved? {
        var request := EntryRequest(settings, a, env, order);
        var (ex, report) := Place(FeesOf(settings), w.exchange, request);
        BookingRegisters(settings, checked, w.exchange, a, env, order, at);
      } else {
        UnplacedRegisters(w.tables.orders, w.exchange, RejectedOrder(a, at));
      }
    }
  }

  lemma BookingRegisters(settings: Settings, t: Tables, ex: ExchangeState, a: EntryArgs, env: Env, order: NormalizedOrder, at: int)
    requires Registered(t.orders, ex)
    ensures var (ex', report) := Place(FeesOf(settings), ex, EntryRequest(settings, a, env, order));
            Registered(BookEntry(settings, t, a, env, order, report, at).orders, ex')
  {
    var request := EntryRequest(settings, a, env, order);
    var (ex', report) := Place(FeesOf(settings), ex, request);
    hide Place, Registered, EnteredPosition, EntryTrade, Recalculate;
    var after := BookEntry(settings, t, a, env, order, report, at);
    var row := PersistedOrder(a.key, a.side, a.source, request, report, order.leverage, at);
    var stored := if IsFill(report) then row.(liquidationPrice := EntryFillOf(settings, a, env, order, report, at).liquidationPrice) else row;
    PlacementRegisters(FeesOf(settings), t.orders, ex, request, stored);
    RecalculationKeepsOrders(settings, t, a, env, order, report, at, stored);
  }

  lemma RecalculationKeepsOrders(settings: Settings, t: Tables, a: EntryArgs, env: Env, order: NormalizedOrder, report: Report,
                                 at: int, stored: OrderRow)
    requires var row := PersistedOrder(a.key, a.side, a.source, EntryRequest(settings, a, env, order), report, order.leverage, at);
             stored == if IsFill(report) then row.(liquidationPrice := EntryFillOf(settings, a, env, order, report, at).liquidationPrice) else row
    ensures BookEntry(settings, t, a, env, order, report, at).orders == t.orders + [stored]
  {
    hide EnteredPosition, EntryTrade, RepriceAll, Totals, LiquidationOf;
  }

  lemma CloseRegisters(settings: Settings, w: World, id: nat, c: CloseArgs, env: Env, at: int)
    requires id < |w.tables.positions| && Registered(w.tables.orders, w.exchange)
    ensures var after := ClosePosition(settings, w, id, c, env, at).0;
            Registered(after.tables.orders, after.exchange)
  {
    hide Place, Registered, NormalizeOrder, ExitedPosition, ExitTrade, RepriceAll, Totals;
    var p := w.tables.positions[id];
    var normalized := NormalizeOrder(settings, env.instrument, p.quantity, c.limitPrice, c.referencePrice, p.leverage);
    if p.status == Open && normalized.Success? {
      var request := CloseRequest(settings, p, c, env, normalized.value);
      var report := Place(FeesOf(settings), w.exchange, request).1;
      PlacementRegisters(FeesOf(settings), w.tables.orders, w.exchange, request,
        PersistedOrder(p.key, p.side, CloseSource(c.reason), request, report, normalized.value.leverage, at));
    }
  }

  // ---------- Cancellation ----------

  lemma CancelRemoves(orders: seq<OrderRow>, ex: ExchangeState, id: nat)
    requires Registered(orders, ex) && id < |orders| && IsResting(orders[id])
    ensures orders[id].clientId.Some? && orders[id].clientId.value in ex.openOrders
    ensures Registered(orders[id := orders[id].(status := Canceled)], Cancel(ex, orders[id].clientId.value).0)
  {
    var after := orders[id := orders[id].(status := Canceled)];
    var client := orders[id].clientId.value;
    assert HasResting(orders, client);
    forall other: nat
      ensures other in Cancel(ex, client).0.openOrders <==> HasResting(after, other)
    {
      if HasResting(orders, other) && other != client {
        var i :| 0 <= i < |orders| && orders[i].clientId == Some(other) && IsResting(orders[i]);
        assert after[i] == orders[i];
      }
      if HasResting(after, other) {
        var i :| 0 <= i < |after| && after[i].clientId == Some(other) && IsResting(after[i]);
        assert i != id && after[i] == orders[i];
      }
    }
  }

  /** An order can be canceled exactly while it rests: then it leaves the registry, its row says so,
      and a second attempt is refused; every refused attempt changes nothing. */
  lemma CancelableExactlyOnce(w: World, id: nat)
    requires Registered(w.tables.orders, w.exchange) && id < |w.tables.orders|
    ensures var (after, result) := CancelOrder(w, id);
            && (result.Success? <==> IsResting(w.tables.orders[id]))
            && (result.Failure? ==> after == w)
            && Registered(after.tables.orders, after.exchange)
            && (result.Success? ==>
                  && after.tables == w.tables.(orders := w.tables.orders[id := w.tables.orders[id].(status := Canceled)])
                  && after.exchange.openOrders == w.exchange.openOrders - {w.tables.orders[id].clientId.value}
                  && CancelOrder(after, id) == (after, Failure(OrderNotCancelable)))
  {
    var o := w.tables.orders[id];
    if IsResting(o) {
      CancelRemoves(w.tables.orders, w.exchange, id);
    } else if o.clientId.Some? {
      forall i | 0 <= i < |w.tables.orders| && w.tables.orders[i].clientId == o.clientId
        ensures !IsResting(w.tables.orders[i])
      {
        assert i == id;
      }
      assert !HasResting(w.tables.orders, o.clientId.value);
      assert w.exchange.openOrders - {o.clientId.value} == w.exchange.openOrders;
    }
  }

  // ---------- Runs ----------

  lemma EvaluationRegisters(settings: Settings, w: World, call: Call, at: int)
    requires Registered(w.tables.orders, w.exchange)
    ensures var after := Evaluate(settings, w, call, at).0;
            Registered(after.tables.orders, after.exchange)
  {
    hide SubmitEntry, ClosePosition, Registered, CoolingDown, RepriceAll, Totals;
    if call.frame != [] && SelectedSignalRow(settings, call).Some? {
      var row, open := SelectedSignalRow(settings, call).value, FindOpen(w.tables.positions, KeyOf(call));
      if open.Some? {
        var marked := MarkAtLatest(w, call);
        var exit := TriggeredExit(marked.tables.positions[open.value], row);
        if exit.Some? {
          CloseRegisters(settings, marked, open.value, MarketClose(exit.value.0, exit.value.1), call.env, at);
        }
      } else {
        EntryRegisters(settings, w, StrategyEntry(settings, call, row), call.env, at);
      }
    }
  }

  lemma ActionRegisters(settings: Settings, w: World, action: Action)
    requires Registered(w.tables.orders, w.exchange)
    ensures var after := Apply(settings, w, action);
            Registered(after.tables.orders, after.exchange)
  {
    hide SubmitEntry, ClosePosition, Evaluate, Registered, RepriceAll, Totals;
    match action
    case EvaluateCall(call, at) => EvaluationRegisters(settings, w, call, at);
    case SubmitOther(args, env, at) => EntryRegisters(settings, w, args, env, at);
    case CloseById(id, reference, env, at) =>
      if id < |w.tables.positions| {
        CloseRegisters(settings, w, id, MarketClose(ManualReference(w.tables.positions[id], reference), ManualExit), env, at);
      }
    case CancelById(orderId, _) =>
      if orderId < |w.tables.orders| {
        CancelableExactlyOnce(w, orderId);
      }
    case ChargeFunding(id, cost, at) =>
    case RepriceTo(prices, _) =>
  }

  /** Over every run in one process, the registry holds exactly the client ids of the limit orders
      whose persisted status is NEW or PARTIALLY_FILLED. */
  lemma {:induction false} EveryRunIsRegistered(settings: Settings, actions: seq<Action>)
    ensures var w := Run(settings, actions);
            Registered(w.tables.orders, w.exchange)
  {
    hide Apply;
    if actions != [] {
      var init := actions[..|actions| - 1];
      EveryRunIsRegistered(settings, init);
      ActionRegisters(settings, Run(settings, init), actions[|actions| - 1]);
    }
  }
}
