/** The simulated exchange and its registry of resting orders (app/exchanges/paper_exchange.py). */
module PaperExchange {
  import opened Common
  import opened Config
  import opened Fees
  import OrderBook

  datatype OrderRequest = OrderRequest(
    symbol: string,
    side: OrderSide,
    orderType: OrderType,
    quantity: real,
    referencePrice: real,
    limitPrice: Option<real>,
    book: Option<OrderBook.Book>,
    model: ExecutionModel,
    allowCandleFallback: bool)

  datatype Report = Report(
    clientId: nat,
    status: OrderStatus,
    requestedQuantity: real,
    filledQuantity: real,
    remainingQuantity: real,
    fillPrice: Option<real>,
    feePaid: real)

  datatype RestingOrder = RestingOrder(symbol: string, side: OrderSide, quantity: real, limitPrice: Option<real>)

  /** The registry, and the next client id: the ids of one process never repeat. */
  datatype ExchangeState = ExchangeState(openOrders: map<nat, RestingOrder>, nextId: nat)

  datatype FeeSchedule = FeeSchedule(feeBps: real, slippageBps: real)

  function Unfilled(request: OrderRequest, id: nat, status: OrderStatus): Report {
    Report(id, status, request.quantity, 0.0, request.quantity, None, 0.0)
  }

  function DepthOutcome(request: OrderRequest, book: OrderBook.Book): OrderBook.DepthFill {
    if request.orderType == Market then OrderBook.MarketFill(request.side, request.quantity, book)
    else OrderBook.LimitFill(request.side, request.quantity, OrElse(request.limitPrice, request.referencePrice), book)
  }

  function CandlePrice(fees: FeeSchedule, request: OrderRequest): real {
    ApplySlippage(
      if request.orderType == Limit then OrElse(request.limitPrice, request.referencePrice) else request.referencePrice,
      request.side,
      if request.orderType == Market then fees.slippageBps else 0.0)
  }

  function FilledAt(fees: FeeSchedule, request: OrderRequest, id: nat, price: real): Report {
    Report(id, Filled, request.quantity, request.quantity, 0.0, Some(price),
           CalculateFee(Notional(price, request.quantity), fees.feeBps))
  }

  predicate CrossesMarket(request: OrderRequest, limit: real) {
    if request.side == Buy then limit >= request.referencePrice else limit <= request.referencePrice
  }

  function CandleReport(fees: FeeSchedule, request: OrderRequest, id: nat): Report {
    if request.orderType == Limit && request.limitPrice.Some? && !CrossesMarket(request, request.limitPrice.value) then
      Unfilled(request, id, New)
    else
      FilledAt(fees, request, id, CandlePrice(fees, request))
  }

  /** How the exchange answers a request. A market order that finds its side of the book empty falls
      through to a candle fill. */
  function Answer(fees: FeeSchedule, request: OrderRequest, id: nat): Report {
    if request.model == DepthModel && request.book.None? && !request.allowCandleFallback then
      Unfilled(request, id, Rejected)
    else if request.book.Some? then
      var fill := DepthOutcome(request, request.book.value);
      if fill.status == Filled || fill.status == PartiallyFilled then
        Report(id, fill.status, request.quantity, fill.filledQuantity, fill.remainingQuantity, fill.averagePrice,
               CalculateFee(fill.notional, fees.feeBps))
      else if request.orderType == Limit then Unfilled(request, id, New)
      else CandleReport(fees, request, id)
    else CandleReport(fees, request, id)
  }

  /** An order rests when it is a limit order that the exchange has not filled completely. */
  predicate Rests(request: OrderRequest, report: Report) {
    request.orderType == Limit && (report.status == New || report.status == PartiallyFilled)
  }

  function Place(fees: FeeSchedule, ex: ExchangeState, request: OrderRequest): (ExchangeState, Report) {
    var report := Answer(fees, request, ex.nextId);
    (ExchangeState(
       if Rests(request, report)
       then ex.openOrders[ex.nextId := RestingOrder(request.symbol, request.side, report.remainingQuantity, request.limitPrice)]
       else ex.openOrders,
       ex.nextId + 1),
     report)
  }

  function Cancel(ex: ExchangeState, id: nat): (ExchangeState, bool) {
    (ex.(openOrders := ex.openOrders - {id}), id in ex.openOrders)
  }

  /** What a depth fill of a positive quantity promises. */
  ghost predicate DepthFillAddsUp(fill: OrderBook.DepthFill, quantity: real) {
    && fill.filledQuantity + fill.remainingQuantity == quantity
    && 0.0 <= fill.filledQuantity <= quantity
    && (fill.status == Filled <==> fill.remainingQuantity == 0.0)
    && (fill.status == PartiallyFilled <==> 0.0 < fill.filledQuantity < quantity)
    && (fill.averagePrice.Some? <==> fill.filledQuantity > 0.0)
  }

  lemma DepthOutcomeAddsUp(request: OrderRequest, book: OrderBook.Book)
    requires request.quantity > 0.0
    ensures DepthFillAddsUp(DepthOutcome(request, book), request.quantity)
  {
    var levels := if request.side == Buy then book.asks else book.bids;
    var limit := OrElse(request.limitPrice, request.referencePrice);
    OrderBook.WalkFillsWhatTheBookHolds(levels, request.quantity);
    OrderBook.WalkFillsWhatTheBookHolds(OrderBook.Eligible(request.side, limit, levels), request.quantity);
  }

  /** What an answer to a request for a positive quantity promises: it accounts for the whole request,
      and a price comes exactly with a fill. */
  ghost predicate AddsUp(request: OrderRequest, r: Report) {
    && r.filledQuantity + r.remainingQuantity == r.requestedQuantity == request.quantity
    && 0.0 <= r.filledQuantity <= request.quantity
    && (r.status == Filled <==> r.remainingQuantity == 0.0)
    && (r.status == Filled || r.status == PartiallyFilled <==> r.filledQuantity > 0.0)
    && (r.fillPrice.Some? <==> r.filledQuantity > 0.0)
  }

  lemma CandleAddsUp(fees: FeeSchedule, request: OrderRequest, id: nat)
    requires request.quantity > 0.0
    ensures AddsUp(request, CandleReport(fees, request, id))
  {
  }

  lemma ReportsAddUp(fees: FeeSchedule, request: OrderRequest, id: nat)
    requires request.quantity > 0.0
    ensures AddsUp(request, Answer(fees, request, id))
  {
    CandleAddsUp(fees, request, id);
    if request.book.Some? {
      DepthOutcomeAddsUp(request, request.book.value);
    }
  }

  /** A market order is filled from its side of the book as far as that side reaches; against a side
      that holds nothing it is filled completely, like a candle order. */
  lemma MarketOrderSource(fees: FeeSchedule, request: OrderRequest, id: nat)
    requires request.orderType == Market && request.book.Some? && request.quantity > 0.0
    ensures var levels := if request.side == Buy then request.book.value.asks else request.book.value.bids;
            var report := Answer(fees, request, id);
            if OrderBook.Depth(levels) > 0.0 then
              report.filledQuantity == Min(request.quantity, OrderBook.Depth(levels))
              && report.fillPrice == OrderBook.Walk(levels, request.quantity).averagePrice
            else
              report.filledQuantity == request.quantity
              && report.fillPrice == Some(ApplySlippage(request.referencePrice, request.side, fees.slippageBps))
  {
    var levels := if request.side == Buy then request.book.value.asks else request.book.value.bids;
    OrderBook.WalkFillsWhatTheBookHolds(levels, request.quantity);
  }

  /** A limit order is never filled at a price worse than its limit, from the book or from the candle;
      a limit of zero counts as none. */
  lemma LimitOrdersKeepTheirLimit(fees: FeeSchedule, request: OrderRequest, id: nat)
    requires request.orderType == Limit && request.limitPrice.Some? && request.limitPrice.value != 0.0
    ensures var fillPrice := Answer(fees, request, id).fillPrice;
            fillPrice.Some? ==>
              if request.side == Buy then fillPrice.value <= request.limitPrice.value
              else fillPrice.value >= request.limitPrice.value
  {
    CandleKeepsLimit(fees, request, id);
    if request.book.Some? {
      OrderBook.LimitIsNeverBreached(request.side, request.quantity, request.limitPrice.value, request.book.value);
    }
    hide OrderBook.LimitFill, CandleReport;
  }

  lemma CandleKeepsLimit(fees: FeeSchedule, request: OrderRequest, id: nat)
    requires request.orderType == Limit && request.limitPrice.Some? && request.limitPrice.value != 0.0
    ensures var fillPrice := CandleReport(fees, request, id).fillPrice;
            fillPrice.Some? ==> fillPrice == request.limitPrice && CrossesMarket(request, request.limitPrice.value)
  {
  }

  class Exchange {
    const fees: FeeSchedule
    var openOrders: map<nat, RestingOrder>
    var nextId: nat

    ghost function State(): ExchangeState
      reads this
    {
      ExchangeState(openOrders, nextId)
    }

    constructor (fees: FeeSchedule)
      ensures this.fees == fees && State() == ExchangeState(map[], 0)
    {
      this.fees := fees;
      openOrders, nextId := map[], 0;
    }

    method NewClientId() returns (id: nat)
      modifies this
      ensures id == old(nextId) && nextId == id + 1 && openOrders == old(openOrders)
    {
      id := nextId;
      nextId := nextId + 1;
    }

    method PlaceOrder(request: OrderRequest) returns (report: Report)
      modifies this
      ensures (State(), report) == Place(fees, old(State()), request)
    {
      var id := NewClientId();
      if request.model == DepthModel && request.book.None? && !request.allowCandleFallback {
        return Unfilled(request, id, Rejected);
      }
      if request.book.Some? {
        var fill;
        if request.orderType == Market {
          fill := OrderBook.SimulateMarketFill(request.side, request.quantity, request.book.value);
        } else {
          fill := OrderBook.SimulateLimitFill(request.side, request.quantity,
                                              OrElse(request.limitPrice, request.referencePrice), request.book.value);
        }
        if fill.status == Filled || fill.status == PartiallyFilled {
          if fill.remainingQuantity > 0.0 && request.orderType == Limit {
            openOrders := openOrders[id := RestingOrder(request.symbol, request.side, fill.remainingQuantity, request.limitPrice)];
          }
          return Report(id, fill.status, request.quantity, fill.filledQuantity, fill.remainingQuantity,
                        fill.averagePrice, CalculateFee(fill.notional, fees.feeBps));
        }
        if request.orderType == Limit {
          openOrders := openOrders[id := RestingOrder(request.symbol, request.side, request.quantity, request.limitPrice)];
          return Unfilled(request, id, New);
        }
      }
      if request.orderType == Limit && request.limitPrice.Some? && !CrossesMarket(request, request.limitPrice.value) {
        openOrders := openOrders[id := RestingOrder(request.symbol, request.side, request.quantity, request.limitPrice)];
        return Unfilled(request, id, New);
      }
      report := FilledAt(fees, request, id, CandlePrice(fees, request));
    }

    method CancelOrder(id: nat) returns (canceled: bool)
      modifies this
      ensures (State(), canceled) == Cancel(old(State()), id)
    {
      canceled := id in openOrders;
      openOrders := openOrders - {id};
    }
  }
}
