/** Depth-aware fills against one side of an order book (app/utils/orderbook.py). */
module OrderBook {
  import opened Common
  import opened Fees

  datatype Level = Level(price: real, size: real)

  datatype Book = Book(bids: seq<Level>, asks: seq<Level>)

  datatype DepthFill = DepthFill(
    status: OrderStatus,
    filledQuantity: real,
    remainingQuantity: real,
    averagePrice: Option<real>,
    notional: real)

  // ---------- What a walk means ----------

  /** What a level can supply: a level of non-positive size supplies nothing. */
  function Available(level: Level): real {
    Max(level.size, 0.0)
  }

  /** Everything a book side can supply. */
  function Depth(levels: seq<Level>): (d: real)
    ensures d >= 0.0
  {
    if levels == [] then 0.0 else Available(levels[0]) + Depth(levels[1..])
  }

  /** What a request for `quantity` takes from one level. */
  function TakeFrom(level: Level, quantity: real): real {
    Min(Available(level), Max(quantity, 0.0))
  }

  /** The quantity that a request for `quantity` takes from each level, in book order. */
  function Takes(levels: seq<Level>, quantity: real): (t: seq<real>)
    ensures |t| == |levels|
  {
    if levels == [] then []
    else
      var take := TakeFrom(levels[0], quantity);
      [take] + Takes(levels[1..], quantity - take)
  }

  /** What a per-level allocation costs. */
  function Spend(levels: seq<Level>, allocation: seq<real>): real
    requires |levels| == |allocation|
  {
    if levels == [] then 0.0
    else Notional(levels[0].price, allocation[0]) + Spend(levels[1..], allocation[1..])
  }

  function Total(allocation: seq<real>): real {
    if allocation == [] then 0.0 else allocation[0] + Total(allocation[1..])
  }

  /** An allocation takes from every level no more than it can supply. */
  ghost predicate IsAllocation(levels: seq<Level>, allocation: seq<real>) {
    && |levels| == |allocation|
    && forall i :: 0 <= i < |levels| ==> 0.0 <= allocation[i] <= Available(levels[i])
  }

  /** The quantity that a fill of `quantity` reaches. */
  function Reach(levels: seq<Level>, quantity: real): real {
    Total(Takes(levels, quantity))
  }

  /** The money moved by a fill of `quantity`. */
  function Cost(levels: seq<Level>, quantity: real): real {
    Spend(levels, Takes(levels, quantity))
  }

  /** The result record for a filled quantity, what it cost and what remains. */
  function Summary(filled: real, notional: real, remaining: real): DepthFill {
    DepthFill(
      if filled <= 0.0 then Rejected else if remaining > 0.0 then PartiallyFilled else Filled,
      filled,
      Max(remaining, 0.0),
      if filled > 0.0 then Some(notional / filled) else None,
      notional)
  }

  function Walk(levels: seq<Level>, quantity: real): DepthFill {
    var filled := Reach(levels, quantity);
    Summary(filled, Cost(levels, quantity), quantity - filled)
  }

  // ---------- The walk itself ----------

  lemma WalkStep(levels: seq<Level>, i: nat, remaining: real, take: real)
    requires i < |levels| && take == TakeFrom(levels[i], remaining)
    ensures Reach(levels[i..], remaining) == take + Reach(levels[i + 1..], remaining - take)
    ensures Cost(levels[i..], remaining) == Notional(levels[i].price, take) + Cost(levels[i + 1..], remaining - take)
    ensures take == 0.0 ==> Cost(levels[i..], remaining) == Cost(levels[i + 1..], remaining)
  {
    assert levels[i..][1..] == levels[i + 1..];
    TotalStep(levels[i..], remaining);
    CostStep(levels[i..], remaining);
  }

  method WalkLevels(levels: seq<Level>, quantity: real) returns (fill: DepthFill)
    ensures fill == Walk(levels, quantity)
    ensures quantity >= 0.0 ==> fill.filledQuantity == Min(quantity, Depth(levels))
    ensures quantity >= 0.0 ==> fill.filledQuantity + fill.remainingQuantity == quantity
  {
    var remaining := quantity;
    var filled := 0.0;
    var notional := 0.0;
    var i := 0;
    while i < |levels|
      invariant 0 <= i <= |levels|
      invariant filled + remaining == quantity
      invariant filled >= 0.0
      invariant Reach(levels, quantity) == filled + Reach(levels[i..], remaining)
      invariant Cost(levels, quantity) == notional + Cost(levels[i..], remaining)
    {
      hide Reach, Cost, Notional;
      if remaining <= 0.0 {
        NothingLeftToTake(levels[i..], remaining);
        break;
      }
      var level := levels[i];
      var take := Min(level.size, remaining);
      WalkStep(levels, i, remaining, Max(take, 0.0));
      i := i + 1;
      if take <= 0.0 { continue; }
      filled := filled + take;
      notional := notional + Notional(level.price, take);
      remaining := remaining - take;
    }
    if quantity >= 0.0 {
      WalkFillsWhatTheBookHolds(levels, quantity);
    }
    fill := Summary(filled, notional, remaining);
  }

  lemma {:induction false} NothingLeftToTake(levels: seq<Level>, quantity: real)
    requires quantity <= 0.0
    ensures Reach(levels, quantity) == 0.0
    ensures Cost(levels, quantity) == 0.0
  {
    if levels != [] {
      assert Takes(levels, quantity)[1..] == Takes(levels[1..], quantity);
      NothingLeftToTake(levels[1..], quantity);
    }
  }

  /** A request is filled up to the depth of the side, and what is not filled remains. */
  lemma {:induction false} WalkFillsWhatTheBookHolds(levels: seq<Level>, quantity: real)
    ensures Reach(levels, quantity) == Min(Max(quantity, 0.0), Depth(levels))
    ensures IsAllocation(levels, Takes(levels, quantity))
    ensures quantity >= 0.0 ==>
              Walk(levels, quantity).filledQuantity + Walk(levels, quantity).remainingQuantity == quantity
  {
    if levels != [] {
      var take := TakeFrom(levels[0], quantity);
      assert Takes(levels, quantity)[1..] == Takes(levels[1..], quantity - take);
      WalkFillsWhatTheBookHolds(levels[1..], quantity - take);
    }
  }

  // ---------- Optimality ----------

  /** Best asks first: prices never fall. */
  ghost predicate Rising(levels: seq<Level>) {
    forall i, j :: 0 <= i < j < |levels| ==> levels[i].price <= levels[j].price
  }

  /** Best bids first: prices never rise. */
  ghost predicate Falling(levels: seq<Level>) {
    forall i, j :: 0 <= i < j < |levels| ==> levels[i].price >= levels[j].price
  }

  lemma CostStep(levels: seq<Level>, quantity: real)
    requires levels != []
    ensures var take := TakeFrom(levels[0], quantity);
            Cost(levels, quantity) == Notional(levels[0].price, take) + Cost(levels[1..], quantity - take)
  {
    assert Takes(levels, quantity)[1..] == Takes(levels[1..], quantity - TakeFrom(levels[0], quantity));
  }

  /** Every extra unit costs at least the best price still on the book. */
  lemma {:induction false} ExtraUnitsCostAtLeastTheBest(levels: seq<Level>, q: real, extra: real, best: real)
    requires Rising(levels)
    requires levels != [] ==> best <= levels[0].price
    requires 0.0 <= q && 0.0 <= extra && q + extra <= Depth(levels)
    ensures Cost(levels, q) + Notional(best, extra) <= Cost(levels, q + extra)
  {
    if levels == [] {
      assert extra == 0.0;
    } else {
      var p := levels[0].price;
      var t1, t2 := TakeFrom(levels[0], q), TakeFrom(levels[0], q + extra);
      var rest := extra - (t2 - t1);
      CostStep(levels, q);
      CostStep(levels, q + extra);
      if levels[1..] != [] {
        assert levels[1..][0] == levels[1];
      }
      ExtraUnitsCostAtLeastTheBest(levels[1..], q - t1, rest, best);
      assert (q - t1) + rest == q + extra - t2;
      Exchange(t1, t2, rest, extra, p, best);
      hide *;
    }
  }

  /** Moving units from a price to one that is no better saves nothing. */
  lemma Exchange(t1: real, t2: real, rest: real, extra: real, p: real, best: real)
    requires t1 <= t2 && best <= p && extra == t2 - t1 + rest
    ensures Notional(p, t1) + Notional(best, extra) <= Notional(p, t2) + Notional(best, rest)
  {
    assert t2 * p + rest * best - (t1 * p + extra * best) == (t2 - t1) * (p - best);
  }

  lemma NotionalAdds(price: real, a: real, b: real, sum: real)
    requires sum == a + b
    ensures Notional(price, sum) == Notional(price, a) + Notional(price, b)
  {
  }

  lemma {:induction false} AllocationsFitTheDepth(levels: seq<Level>, allocation: seq<real>)
    requires IsAllocation(levels, allocation)
    ensures 0.0 <= Total(allocation) <= Depth(levels)
  {
    if levels != [] {
      AllocationsFitTheDepth(levels[1..], allocation[1..]);
    }
  }

  lemma {:induction false} GreedyIsCheapest(levels: seq<Level>, allocation: seq<real>)
    requires Rising(levels)
    requires IsAllocation(levels, allocation)
    ensures Cost(levels, Total(allocation)) <= Spend(levels, allocation)
  {
    if levels != [] {
      var q := Total(allocation);
      var rest, a, p := levels[1..], allocation[0], levels[0].price;
      var take := TakeFrom(levels[0], q);
      AllocationsFitTheDepth(rest, allocation[1..]);
      GreedyIsCheapest(rest, allocation[1..]);
      CostStep(levels, q);
      if rest != [] {
        assert rest[0] == levels[1];
      }
      ExtraUnitsCostAtLeastTheBest(rest, q - take, take - a, p);
      assert (q - take) + (take - a) == Total(allocation[1..]);
      NotionalAdds(p, a, take - a, take);
      assert Spend(levels, allocation) == Notional(p, a) + Spend(rest, allocation[1..]);
      hide *;
    }
  }

  /** Asks: no allocation of the quantity that the walk fills costs a buyer less than the walk. */
  lemma WalkIsCheapest(levels: seq<Level>, allocation: seq<real>)
    requires Rising(levels)
    requires IsAllocation(levels, allocation)
    ensures Walk(levels, Total(allocation)).filledQuantity == Total(allocation)
    ensures Walk(levels, Total(allocation)).notional <= Spend(levels, allocation)
  {
    AllocationsFitTheDepth(levels, allocation);
    WalkFillsWhatTheBookHolds(levels, Total(allocation));
    GreedyIsCheapest(levels, allocation);
  }

  function Negated(levels: seq<Level>): (r: seq<Level>)
    ensures |r| == |levels|
    ensures forall i :: 0 <= i < |levels| ==> r[i] == Level(-levels[i].price, levels[i].size)
  {
    if levels == [] then [] else [Level(-levels[0].price, levels[0].size)] + Negated(levels[1..])
  }

  lemma NotionalNegates(price: real, quantity: real)
    ensures Notional(-price, quantity) == -Notional(price, quantity)
  {
  }

  lemma {:induction false} NegatedSpend(levels: seq<Level>, allocation: seq<real>)
    requires |levels| == |allocation|
    ensures Spend(Negated(levels), allocation) == -Spend(levels, allocation)
  {
    if levels != [] {
      NegatedSpend(levels[1..], allocation[1..]);
      NotionalNegates(levels[0].price, allocation[0]);
      hide Notional;
      assert Negated(levels)[1..] == Negated(levels[1..]);
    }
  }

  lemma {:induction false} NegatedTakes(levels: seq<Level>, quantity: real)
    ensures Takes(Negated(levels), quantity) == Takes(levels, quantity)
  {
    if levels != [] {
      NegatedTakes(levels[1..], quantity - TakeFrom(levels[0], quantity));
      assert Negated(levels)[1..] == Negated(levels[1..]);
    }
  }

  /** Bids: no allocation of the quantity that the walk fills brings a seller more than the walk. */
  lemma WalkIsDearest(levels: seq<Level>, allocation: seq<real>)
    requires Falling(levels)
    requires IsAllocation(levels, allocation)
    ensures Walk(levels, Total(allocation)).filledQuantity == Total(allocation)
    ensures Walk(levels, Total(allocation)).notional >= Spend(levels, allocation)
  {
    var q := Total(allocation);
    WalkIsCheapest(Negated(levels), allocation);
    NegatedTakes(levels, q);
    NegatedSpend(levels, allocation);
    NegatedSpend(levels, Takes(levels, q));
  }

  // ---------- Additivity ----------

  /** What is left of a side after a fill. */
  function Residual(levels: seq<Level>, quantity: real): (r: seq<Level>)
    ensures |r| == |levels|
  {
    if levels == [] then []
    else
      var take := TakeFrom(levels[0], quantity);
      [levels[0].(size := levels[0].size - take)] + Residual(levels[1..], quantity - take)
  }

  lemma TotalStep(levels: seq<Level>, quantity: real)
    requires levels != []
    ensures var take := TakeFrom(levels[0], quantity);
            Reach(levels, quantity) == take + Reach(levels[1..], quantity - take)
  {
    assert Takes(levels, quantity)[1..] == Takes(levels[1..], quantity - TakeFrom(levels[0], quantity));
  }

  /** Taking q1 + q2 from a level takes q1 and then q2 from what q1 left. */
  lemma TakeSplits(l: Level, q1: real, q2: real)
    requires q1 >= 0.0 && q2 >= 0.0
    ensures var t1 := TakeFrom(l, q1);
            TakeFrom(l, q1 + q2) == t1 + TakeFrom(l.(size := l.size - t1), q2)
  {
  }

  lemma {:induction false} TotalIsAdditive(levels: seq<Level>, q1: real, q2: real, q: real)
    requires q1 >= 0.0 && q2 >= 0.0 && q == q1 + q2
    ensures Reach(levels, q) == Reach(levels, q1) + Reach(Residual(levels, q1), q2)
  {
    if levels != [] {
      hide Reach;
      var l, rest, left := levels[0], levels[1..], Residual(levels, q1);
      var t1, t, t2 := TakeFrom(l, q1), TakeFrom(l, q), TakeFrom(left[0], q2);
      TakeSplits(l, q1, q2);
      assert left[1..] == Residual(rest, q1 - t1) && t == t1 + t2 && t1 <= q1 && t2 <= q2;
      hide TakeFrom, Residual;
      TotalStep(levels, q1);
      TotalStep(levels, q);
      TotalStep(left, q2);
      TotalIsAdditive(rest, q1 - t1, q2 - t2, q - t);
    } else {
      assert Residual(levels, q1) == [];
    }
  }

  lemma {:induction false} CostIsAdditive(levels: seq<Level>, q1: real, q2: real, q: real)
    requires q1 >= 0.0 && q2 >= 0.0 && q == q1 + q2
    ensures Cost(levels, q) == Cost(levels, q1) + Cost(Residual(levels, q1), q2)
  {
    if levels != [] {
      hide Cost, Notional;
      var l, rest, left := levels[0], levels[1..], Residual(levels, q1);
      var t1, t, t2 := TakeFrom(l, q1), TakeFrom(l, q), TakeFrom(left[0], q2);
      TakeSplits(l, q1, q2);
      assert left[1..] == Residual(rest, q1 - t1) && t == t1 + t2 && t1 <= q1 && t2 <= q2 && left[0].price == l.price;
      hide TakeFrom, Residual;
      CostStep(levels, q1);
      CostStep(levels, q);
      CostStep(left, q2);
      NotionalAdds(l.price, t1, t2, t);
      CostIsAdditive(rest, q1 - t1, q2 - t2, q - t);
    } else {
      assert Residual(levels, q1) == [];
    }
  }

  /** Filling q1 + q2 is filling q1, then q2 on what is left: same quantity, same money. */
  lemma WalkIsAdditive(levels: seq<Level>, q1: real, q2: real)
    requires q1 >= 0.0 && q2 >= 0.0
    ensures Walk(levels, q1 + q2).filledQuantity ==
            Walk(levels, q1).filledQuantity + Walk(Residual(levels, q1), q2).filledQuantity
    ensures Walk(levels, q1 + q2).notional == Walk(levels, q1).notional + Walk(Residual(levels, q1), q2).notional
  {
    TotalIsAdditive(levels, q1, q2, q1 + q2);
    CostIsAdditive(levels, q1, q2, q1 + q2);
  }

  lemma ScaleLe(k: real, a: real, b: real)
    requires k >= 0.0 && a <= b
    ensures k * a <= k * b
  {
    assert k * b - k * a == k * (b - a);
  }

  // ---------- Market and limit fills ----------

  function MarketFill(side: OrderSide, quantity: real, book: Book): DepthFill {
    Walk(if side == Buy then book.asks else book.bids, quantity)
  }

  predicate WithinLimit(side: OrderSide, limit: real, level: Level) {
    if side == Buy then level.price <= limit else level.price >= limit
  }

  function Eligible(side: OrderSide, limit: real, levels: seq<Level>): (r: seq<Level>)
    ensures forall i :: 0 <= i < |r| ==> r[i] in levels && WithinLimit(side, limit, r[i])
  {
    if levels == [] then []
    else if WithinLimit(side, limit, levels[0]) then [levels[0]] + Eligible(side, limit, levels[1..])
    else Eligible(side, limit, levels[1..])
  }

  function LimitFill(side: OrderSide, quantity: real, limit: real, book: Book): DepthFill {
    var eligible := Eligible(side, limit, if side == Buy then book.asks else book.bids);
    if eligible == [] then DepthFill(New, 0.0, quantity, None, 0.0) else Walk(eligible, quantity)
  }

  method SimulateMarketFill(side: OrderSide, quantity: real, book: Book) returns (fill: DepthFill)
    ensures fill == MarketFill(side, quantity, book)
  {
    var levels := if side == Buy then book.asks else book.bids;
    fill := WalkLevels(levels, quantity);
  }

  method SimulateLimitFill(side: OrderSide, quantity: real, limit: real, book: Book) returns (fill: DepthFill)
    ensures fill == LimitFill(side, quantity, limit, book)
    ensures quantity >= 0.0 ==> fill.filledQuantity + fill.remainingQuantity == quantity
    ensures fill.averagePrice.Some? ==>
              if side == Buy then fill.averagePrice.value <= limit else fill.averagePrice.value >= limit
  {
    var eligible := Eligible(side, limit, if side == Buy then book.asks else book.bids);
    if eligible == [] {
      return DepthFill(New, 0.0, quantity, None, 0.0);
    }
    fill := WalkLevels(eligible, quantity);
    LimitIsNeverBreached(side, quantity, limit, book);
  }

  lemma {:induction false} SpendAtMost(levels: seq<Level>, allocation: seq<real>, limit: real)
    requires IsAllocation(levels, allocation)
    requires forall i :: 0 <= i < |levels| ==> levels[i].price <= limit
    ensures Spend(levels, allocation) <= Notional(limit, Total(allocation))
  {
    if levels != [] {
      var a, rest, spend := allocation[0], Total(allocation[1..]), Spend(levels[1..], allocation[1..]);
      SpendAtMost(levels[1..], allocation[1..], limit);
      AddAtMost(a, levels[0].price, spend, rest, Total(allocation), limit);
    }
  }

  lemma AddAtMost(a: real, p: real, spend: real, rest: real, total: real, limit: real)
    requires a >= 0.0 && p <= limit && total == a + rest
    requires spend <= Notional(limit, rest)
    ensures Notional(p, a) + spend <= Notional(limit, total)
  {
    NotionalAdds(limit, a, rest, total);
    ScaleLe(a, p, limit);
  }

  lemma SpendAtLeast(levels: seq<Level>, allocation: seq<real>, limit: real)
    requires IsAllocation(levels, allocation)
    requires forall i :: 0 <= i < |levels| ==> levels[i].price >= limit
    ensures Spend(levels, allocation) >= Notional(limit, Total(allocation))
  {
    hide Spend, Negated;
    SpendAtMost(Negated(levels), allocation, -limit);
    NegatedSpend(levels, allocation);
    NotionalNegates(limit, Total(allocation));
  }

  lemma WalkWithinLimit(levels: seq<Level>, quantity: real, side: OrderSide, limit: real)
    requires forall i :: 0 <= i < |levels| ==> WithinLimit(side, limit, levels[i])
    ensures var average := Walk(levels, quantity).averagePrice;
            average.Some? ==> if side == Buy then average.value <= limit else average.value >= limit
  {
    var takes := Takes(levels, quantity);
    WalkFillsWhatTheBookHolds(levels, quantity);
    if Total(takes) > 0.0 {
      var spend := Spend(levels, takes);
      if side == Buy {
        SpendAtMost(levels, takes, limit);
      } else {
        SpendAtLeast(levels, takes, limit);
      }
      AverageAgainstLimit(spend, Total(takes), limit);
    }
  }

  /** The average price of a limit fill is never worse than the limit, and the fill takes all that
      the levels within the limit can supply. */
  lemma LimitIsNeverBreached(side: OrderSide, quantity: real, limit: real, book: Book)
    ensures var fill := LimitFill(side, quantity, limit, book);
            var levels := if side == Buy then book.asks else book.bids;
            && (fill.averagePrice.Some? ==>
                  if side == Buy then fill.averagePrice.value <= limit else fill.averagePrice.value >= limit)
            && (quantity >= 0.0 ==>
                  && fill.filledQuantity == Min(quantity, Depth(Eligible(side, limit, levels)))
                  && fill.filledQuantity + fill.remainingQuantity == quantity)
  {
    var eligible := Eligible(side, limit, if side == Buy then book.asks else book.bids);
    WalkFillsWhatTheBookHolds(eligible, quantity);
    WalkWithinLimit(eligible, quantity, side, limit);
  }

  lemma AverageAgainstLimit(notional: real, filled: real, limit: real)
    requires filled > 0.0
    ensures notional <= Notional(limit, filled) ==> notional / filled <= limit
    ensures notional >= Notional(limit, filled) ==> notional / filled >= limit
  {
    var average := notional / filled;
    assert average * filled == notional;
    assert filled * (average - limit) == notional - filled * limit;
  }

  /** The price of any fill against non-negative prices is non-negative, and positive if all are. */
  lemma {:induction false} SpendIsNonNegative(levels: seq<Level>, allocation: seq<real>)
    requires IsAllocation(levels, allocation)
    requires forall l :: l in levels ==> l.price >= 0.0
    ensures Spend(levels, allocation) >= 0.0
  {
    if levels != [] {
      SpendIsNonNegative(levels[1..], allocation[1..]);
    }
  }

  lemma AverageIsNonNegative(levels: seq<Level>, quantity: real)
    requires forall l :: l in levels ==> l.price >= 0.0
    ensures Walk(levels, quantity).averagePrice.Some? ==> Walk(levels, quantity).averagePrice.value >= 0.0
  {
    var takes := Takes(levels, quantity);
    WalkFillsWhatTheBookHolds(levels, quantity);
    SpendIsNonNegative(levels, takes);
    if Total(takes) > 0.0 {
      AverageAgainstLimit(Spend(levels, takes), Total(takes), 0.0);
    }
  }
}
