/** What the ledger keeps: every position agrees with its trades, and every unit of cash is accounted
    for, over any entries, partial exits, funding charges and repricings. */
module LedgerLaws {
  import opened Common
  import opened Fees
  import opened Ledger

  // ---------- A position and its trades ----------

  /** What was entered and has not been sold: quantity zeroed as dust is still counted here. */
  function Outstanding(trades: seq<TradeRow>, id: nat): real {
    EntryQuantity(trades, id) - ExitQuantity(trades, id)
  }

  /** The part of the entry fees that no exit has been charged with yet. */
  function Unallocated(trades: seq<TradeRow>, id: nat): real {
    ProRata(EntryFees(trades, id), Outstanding(trades, id), EntryQuantity(trades, id))
  }

  /** The entry fees that an exit trade was charged with: what its result falls short of the move of its
      quantity less its own fee and funding. */
  function ChargedTo(side: PositionSide, avgEntryPrice: real, t: TradeRow): real {
    PnlOn(side, t.price, avgEntryPrice, t.quantity) - t.feePaid - t.fundingCost - t.realizedPnl
  }

  function ChargedOf(side: PositionSide, avgEntryPrice: real, id: nat): TradeRow -> real {
    (t: TradeRow) => if Concerns(t, id, Exit) then ChargedTo(side, avgEntryPrice, t) else 0.0
  }

  /** The entry fees that the exits of a position have been charged with so far. */
  function Charged(trades: seq<TradeRow>, id: nat, p: PositionRow): real {
    SumBy(trades, ChargedOf(p.side, p.avgEntryPrice, id))
  }

  /** The row of a position agrees with its trades. The collateral is always the margin of what is
      outstanding, so that the clamps at zero in the exit never bite. */
  ghost predicate Booked(trades: seq<TradeRow>, id: nat, p: PositionRow) {
    var outstanding := Outstanding(trades, id);
    && EntryQuantity(trades, id) > 0.0
    && 0.0 <= outstanding
    && p.avgEntryPrice >= 0.0
    && p.entryNotional == p.avgEntryPrice * outstanding
    && (p.key.itype == Perpetual ==> p.collateral == p.entryNotional / Max(p.leverage, 1.0))
    && (p.key.itype == Spot ==> p.collateral == 0.0 && p.side == Long)
    && (p.status == Open ==> p.quantity == outstanding > 0.0)
    && (p.status == Closed ==> p.quantity == 0.0 && outstanding <= DUST)
    && p.realizedPnl == SumBy(trades, ExitRealizedOf(id))
    && Charged(trades, id, p) + Unallocated(trades, id) == EntryFees(trades, id)
  }

  ghost predicate AllBooked(trades: seq<TradeRow>, positions: seq<PositionRow>) {
    positions == [] ||
    (AllBooked(trades, positions[..|positions| - 1]) && Booked(trades, |positions| - 1, positions[|positions| - 1]))
  }

  lemma {:induction false} BookedAt(trades: seq<TradeRow>, positions: seq<PositionRow>, id: nat)
    requires AllBooked(trades, positions) && id < |positions|
    ensures Booked(trades, id, positions[id])
  {
    if id < |positions| - 1 {
      BookedAt(trades, positions[..|positions| - 1], id);
    }
  }

  lemma {:induction false} BookedEverywhere(trades: seq<TradeRow>, positions: seq<PositionRow>)
    requires forall i: nat :: i < |positions| ==> Booked(trades, i, positions[i])
    ensures AllBooked(trades, positions)
  {
    if positions != [] {
      var init := positions[..|positions| - 1];
      forall i: nat | i < |init|
        ensures Booked(trades, i, init[i])
      {
        assert init[i] == positions[i];
      }
      BookedEverywhere(trades, init);
    }
  }

  // ---------- Where the money is ----------

  /** The money that a position ties up: its margin, or the coins at what they cost. */
  function Locked(p: PositionRow): real {
    if p.key.itype == Perpetual then p.collateral else p.entryNotional
  }

  function UnallocatedIn(trades: seq<TradeRow>): nat -> real {
    (id: nat) => Unallocated(trades, id)
  }

  /** Funding that a spot exit subtracts from its result without paying it. */
  function SpotFundingOf(t: TradeRow): real {
    if t.itype == Spot && t.action == Exit then t.fundingCost else 0.0
  }

  function UnallocatedFees(t: Tables): real {
    SumTo(|t.positions|, UnallocatedIn(t.trades))
  }

  /** Cash and locked money are the starting balance and the realized results, less the entry fees
      that are paid but not yet charged to an exit, plus the funding that spot exits took off their
      results without paying it. */
  ghost predicate Balanced(t: Tables) {
    CashBalance(t) + SumBy(t.positions, Locked) ==
    t.portfolio.startingBalance + SumBy(t.trades, RealizedOf) - UnallocatedFees(t) + SumBy(t.trades, SpotFundingOf)
  }

  /** The same without the funding of spot exits. */
  ghost predicate Conserves(t: Tables) {
    CashBalance(t) + SumBy(t.positions, Locked) ==
    t.portfolio.startingBalance + SumBy(t.trades, RealizedOf) - UnallocatedFees(t)
  }

  ghost predicate Books(t: Tables) {
    && AllBooked(t.trades, t.positions)
    && (forall x :: x in t.trades ==> x.positionId < |t.positions|)
    && Balanced(t)
  }

  // ---------- Sums over an appended trade ----------

  /** A trade leaves the sums of every other position alone. */
  lemma OtherSumsUnchanged(trades: seq<TradeRow>, x: TradeRow, id: nat)
    requires x.positionId != id
    ensures EntryFees(trades + [x], id) == EntryFees(trades, id)
    ensures EntryQuantity(trades + [x], id) == EntryQuantity(trades, id)
    ensures ExitQuantity(trades + [x], id) == ExitQuantity(trades, id)
    ensures SumBy(trades + [x], ExitRealizedOf(id)) == SumBy(trades, ExitRealizedOf(id))
  {
    OwnSums(trades, x, id);
  }

  lemma OwnSums(trades: seq<TradeRow>, x: TradeRow, id: nat)
    ensures EntryFees(trades + [x], id) == EntryFees(trades, id) + EntryFeeOf(id)(x)
    ensures EntryQuantity(trades + [x], id) == EntryQuantity(trades, id) + EntryQuantityOf(id)(x)
    ensures ExitQuantity(trades + [x], id) == ExitQuantity(trades, id) + ExitQuantityOf(id)(x)
    ensures SumBy(trades + [x], ExitRealizedOf(id)) == SumBy(trades, ExitRealizedOf(id)) + ExitRealizedOf(id)(x)
  {
    SumByAppend(trades, x, EntryFeeOf(id));
    SumByAppend(trades, x, EntryQuantityOf(id));
    SumByAppend(trades, x, ExitQuantityOf(id));
    SumByAppend(trades, x, ExitRealizedOf(id));
  }

  lemma ChargedAppend(trades: seq<TradeRow>, x: TradeRow, id: nat, p: PositionRow)
    ensures Charged(trades + [x], id, p) == Charged(trades, id, p) + ChargedOf(p.side, p.avgEntryPrice, id)(x)
  {
    SumByAppend(trades, x, ChargedOf(p.side, p.avgEntryPrice, id));
  }

  lemma GlobalSums(trades: seq<TradeRow>, x: TradeRow)
    ensures SumBy(trades + [x], CashFlowOf) == SumBy(trades, CashFlowOf) + x.cashFlow
    ensures SumBy(trades + [x], RealizedOf) == SumBy(trades, RealizedOf) + x.realizedPnl
    ensures SumBy(trades + [x], SpotFundingOf) == SumBy(trades, SpotFundingOf) + SpotFundingOf(x)
  {
    SumByAppend(trades, x, CashFlowOf);
    SumByAppend(trades, x, RealizedOf);
    SumByAppend(trades, x, SpotFundingOf);
  }

  /** The trades of positions that do not exist yet have empty sums. */
  lemma {:induction false} NoTradesYet(trades: seq<TradeRow>, id: nat)
    requires forall x :: x in trades ==> x.positionId < id
    ensures EntryFees(trades, id) == EntryQuantity(trades, id) == ExitQuantity(trades, id) == 0.0
    ensures SumBy(trades, ExitRealizedOf(id)) == 0.0
  {
    if trades != [] {
      NoTradesYet(trades[..|trades| - 1], id);
    }
  }

  // ---------- Exits ----------

  lemma {:induction false} NothingCharged(trades: seq<TradeRow>, id: nat, p: PositionRow)
    requires forall x :: x in trades ==> x.positionId < id
    ensures Charged(trades, id, p) == 0.0
  {
    if trades != [] {
      NothingCharged(trades[..|trades| - 1], id, p);
    }
  }

  lemma ProRataSplits(amount: real, a: real, b: real, whole: real)
    ensures ProRata(amount, a + b, whole) == ProRata(amount, a, whole) + ProRata(amount, b, whole)
  {
    if whole != 0.0 {
      assert (a + b) / whole == a / whole + b / whole;
      var x, y, z := a / whole, b / whole, (a + b) / whole;
      assert amount * (x + y) == amount * x + amount * y;
    }
  }

  lemma ProRataOfAll(amount: real, whole: real)
    requires whole != 0.0
    ensures ProRata(amount, whole, whole) == amount
  {
    assert whole / whole == 1.0;
  }

  lemma ProRataNonNegative(amount: real, part: real, whole: real)
    requires amount >= 0.0 && part >= 0.0 && whole > 0.0
    ensures ProRata(amount, part, whole) >= 0.0
  {
    var x := part / whole;
    assert x * whole == part;
    assert x >= 0.0;
    assert amount * x >= 0.0;
  }

  /** Margin is proportional to quantity: releasing pro rata leaves the margin of the rest. */
  lemma MarginAfterRelease(avg: real, quantity: real, part: real, l: real, collateral: real)
    requires quantity > 0.0 && 0.0 <= part <= quantity && avg >= 0.0 && l >= 1.0
    requires collateral == Notional(avg, quantity) / l
    ensures collateral - ProRata(collateral, part, quantity) == Notional(avg, quantity - part) / l
    ensures collateral - ProRata(collateral, part, quantity) >= 0.0
  {
    var unit := avg / l;
    UnitMargin(avg, quantity, l);
    UnitMargin(avg, quantity - part, l);
    var x := part / quantity;
    assert x * quantity == part;
    assert collateral * x == unit * part by {
      assert collateral * x == unit * (x * quantity);
    }
    assert unit * (quantity - part) == unit * quantity - unit * part;
    UnitIsNonNegative(avg, l);
    assert unit * (quantity - part) >= 0.0;
  }

  lemma UnitMargin(avg: real, quantity: real, l: real)
    requires l >= 1.0
    ensures avg * quantity / l == avg / l * quantity
  {
    var unit := avg / l;
    assert unit * l == avg;
    assert unit * quantity * l == avg * quantity;
  }

  lemma UnitIsNonNegative(avg: real, l: real)
    requires l >= 1.0 && avg >= 0.0
    ensures avg / l >= 0.0
  {
  }

  /** An exit that sells something, of an open position that is booked. */
  ghost predicate CanExit(t: Tables, id: nat, x: ExitFill) {
    id < |t.positions| && t.positions[id].status == Open && x.filled > 0.0
  }

  /** After an exit the position has outstanding exactly what was not sold, and the fees allocated to
      the exit are no longer unallocated. */
  lemma ExitSums(trades: seq<TradeRow>, id: nat, p: PositionRow, x: ExitFill, orderId: nat)
    requires Booked(trades, id, p) && p.status == Open && x.filled > 0.0
    ensures var fees, quantity := EntryFees(trades, id), EntryQuantity(trades, id);
            var sold := ExitTrade(p, x, fees, quantity, orderId, id);
            var after := trades + [sold];
            && RemainingQuantity(p, x) == p.quantity - CloseQuantity(p, x)
            && 0.0 < CloseQuantity(p, x) <= p.quantity
            && EntryQuantity(after, id) == quantity
            && Outstanding(after, id) == RemainingQuantity(p, x)
            && Unallocated(after, id) == Unallocated(trades, id) - ProRata(fees, CloseQuantity(p, x), quantity)
            && SumBy(after, ExitRealizedOf(id)) == SumBy(trades, ExitRealizedOf(id)) + sold.realizedPnl
  {
    var fees, quantity := EntryFees(trades, id), EntryQuantity(trades, id);
    var sold := ExitTrade(p, x, fees, quantity, orderId, id);
    OwnSums(trades, sold, id);
    ProRataSplits(fees, RemainingQuantity(p, x), CloseQuantity(p, x), quantity);
  }

  lemma ClosesPart(p: PositionRow, x: ExitFill)
    requires p.quantity > 0.0 && x.filled > 0.0
    ensures 0.0 < CloseQuantity(p, x) <= p.quantity && RemainingQuantity(p, x) == p.quantity - CloseQuantity(p, x)
  {
  }

  /** An open position has locked the margin of its quantity. */
  lemma BookedMargin(trades: seq<TradeRow>, id: nat, p: PositionRow)
    requires Booked(trades, id, p) && p.status == Open
    ensures p.quantity > 0.0 && p.avgEntryPrice >= 0.0
    ensures p.key.itype == Perpetual ==> p.collateral == Notional(p.avgEntryPrice, p.quantity) / Max(p.leverage, 1.0)
    ensures p.entryNotional == Notional(p.avgEntryPrice, p.quantity)
    ensures p.key.itype == Spot ==> p.collateral == 0.0 && p.side == Long
  {
    hide Charged, Unallocated, Outstanding, EntryFees, EntryQuantity, SumBy;
  }

  /** The clamp on the released margin never bites: what is left is the margin of what is left. */
  lemma ExitMargin(trades: seq<TradeRow>, id: nat, p: PositionRow, x: ExitFill)
    requires Booked(trades, id, p) && p.status == Open && x.filled > 0.0
    ensures var fees, quantity := EntryFees(trades, id), EntryQuantity(trades, id);
            var left := ExitedPosition(p, x, fees, quantity);
            && left.collateral == p.collateral - CollateralRelease(p, x)
            && (p.key.itype == Perpetual ==> left.collateral == left.entryNotional / Max(p.leverage, 1.0))
            && (p.key.itype == Spot ==> left.collateral == 0.0)
  {
    hide PnlOn, Charged, Unallocated, Outstanding, EntryFees, EntryQuantity, SumBy, ExitRealized;
    BookedMargin(trades, id, p);
    ClosesPart(p, x);
    hide Booked, Notional, ProRata, CloseQuantity, RemainingQuantity;
    if p.key.itype == Perpetual {
      MarginAfterRelease(p.avgEntryPrice, p.quantity, CloseQuantity(p, x), Max(p.leverage, 1.0), p.collateral);
    } else {
      ProRataOfNothing(0.0, CloseQuantity(p, x), p.quantity);
    }
  }

  lemma ExitStaysBooked(trades: seq<TradeRow>, id: nat, p: PositionRow, x: ExitFill, orderId: nat)
    requires Booked(trades, id, p) && p.status == Open && x.filled > 0.0
    ensures var fees, quantity := EntryFees(trades, id), EntryQuantity(trades, id);
            Booked(trades + [ExitTrade(p, x, fees, quantity, orderId, id)], id, ExitedPosition(p, x, fees, quantity))
  {
    var fees, quantity := EntryFees(trades, id), EntryQuantity(trades, id);
    var sold := ExitTrade(p, x, fees, quantity, orderId, id);
    ChargedToExit(p, x, fees, quantity, orderId, id);
    hide ProRata, Unallocated, CloseQuantity, CollateralRelease, GrossPnl, FundingAlloc, ExitRealized, ExitCashFlow, ChargedTo;
    ExitSums(trades, id, p, x, orderId);
    ExitMargin(trades, id, p, x);
    ChargedAppend(trades, sold, id, p);
    assert Charged(trades + [sold], id, ExitedPosition(p, x, fees, quantity)) == Charged(trades + [sold], id, p);
  }

  /** An exit is charged with its share of the entry fees. */
  lemma ChargedToExit(p: PositionRow, x: ExitFill, fees: real, quantity: real, orderId: nat, id: nat)
    ensures var sold := ExitTrade(p, x, fees, quantity, orderId, id);
            ChargedTo(p.side, p.avgEntryPrice, sold) == ProRata(fees, CloseQuantity(p, x), quantity)
  {
    hide ProRata, CloseQuantity, PnlOn, ExitCashFlow;
  }

  /** The money that an exit moves: the change of cash and of locked money is the realized result and
      the fees it was charged with. */
  lemma ExitMoney(trades: seq<TradeRow>, id: nat, p: PositionRow, x: ExitFill, orderId: nat)
    requires Booked(trades, id, p) && p.status == Open && x.filled > 0.0
    ensures var fees, quantity := EntryFees(trades, id), EntryQuantity(trades, id);
            var sold := ExitTrade(p, x, fees, quantity, orderId, id);
            var left := ExitedPosition(p, x, fees, quantity);
            sold.cashFlow + Locked(left) - Locked(p) ==
            sold.realizedPnl + ProRata(fees, CloseQuantity(p, x), quantity) + SpotFundingOf(sold)
  {
    hide Booked, ProRata, Notional, PnlOn, CloseQuantity, EntryFees, EntryQuantity;
    BookedMargin(trades, id, p);
    ClosesPart(p, x);
    if p.key.itype == Perpetual {
      ExitMargin(trades, id, p, x);
    } else {
      hide RemainingQuantity;
      SpotSale(x.price, p.avgEntryPrice, CloseQuantity(p, x), p.quantity);
    }
  }

  lemma ProRataOfNothing(amount: real, part: real, whole: real)
    requires amount == 0.0 || part == 0.0
    ensures ProRata(amount, part, whole) == 0.0
  {
  }

  lemma SpotSale(price: real, avg: real, part: real, whole: real)
    ensures Notional(price, part) + Notional(avg, whole - part) - Notional(avg, whole) == PnlOn(Long, price, avg, part)
  {
  }

  /** A trade of another position leaves a position booked, with the same unallocated fees. */
  lemma OthersStayBooked(trades: seq<TradeRow>, x: TradeRow, id: nat, p: PositionRow)
    requires Booked(trades, id, p) && x.positionId != id
    ensures Booked(trades + [x], id, p)
    ensures Unallocated(trades + [x], id) == Unallocated(trades, id)
  {
    OtherSumsUnchanged(trades, x, id);
  }

  lemma AllStayBooked(t: Tables, id: nat, p: PositionRow, x: TradeRow)
    requires AllBooked(t.trades, t.positions) && id < |t.positions| && x.positionId == id
    requires Booked(t.trades + [x], id, p)
    ensures AllBooked(t.trades + [x], t.positions[id := p])
    ensures forall i: nat :: i < |t.positions| && i != id ==>
              UnallocatedIn(t.trades)(i) == UnallocatedIn(t.trades + [x])(i)
  {
    var positions := t.positions[id := p];
    forall i: nat | i < |positions|
      ensures Booked(t.trades + [x], i, positions[i])
      ensures i != id ==> UnallocatedIn(t.trades)(i) == UnallocatedIn(t.trades + [x])(i)
    {
      if i != id {
        BookedAt(t.trades, t.positions, i);
        OthersStayBooked(t.trades, x, i, t.positions[i]);
      }
    }
    BookedEverywhere(t.trades + [x], positions);
  }

  /** One trade of position `id` moves the books by what it moves locally. */
  lemma OneTradeBalances(t: Tables, id: nat, p: PositionRow, x: TradeRow)
    requires Books(t) && id < |t.positions| && x.positionId == id
    requires Booked(t.trades + [x], id, p)
    requires x.cashFlow + Locked(p) - Locked(t.positions[id]) ==
             x.realizedPnl - (Unallocated(t.trades + [x], id) - Unallocated(t.trades, id)) + SpotFundingOf(x)
    ensures Books(t.(positions := t.positions[id := p], trades := t.trades + [x]))
  {
    AllStayBooked(t, id, p, x);
    GlobalSums(t.trades, x);
    SumByUpdate(t.positions, id, p, Locked);
    SumToChangeOne(|t.positions|, UnallocatedIn(t.trades), UnallocatedIn(t.trades + [x]), id);
  }

  lemma ExitKeepsBooks(t: Tables, id: nat, x: ExitFill, orderId: nat)
    requires Books(t) && CanExit(t, id, x)
    ensures Books(RecordExit(t, id, x, orderId))
  {
    var p := t.positions[id];
    var fees, quantity := EntryFees(t.trades, id), EntryQuantity(t.trades, id);
    BookedAt(t.trades, t.positions, id);
    ExitSums(t.trades, id, p, x, orderId);
    ExitMoney(t.trades, id, p, x, orderId);
    ExitStaysBooked(t.trades, id, p, x, orderId);
    OneTradeBalances(t, id, ExitedPosition(p, x, fees, quantity), ExitTrade(p, x, fees, quantity, orderId, id));
  }

  /** A part of an amount is nothing only if the amount is. */
  lemma ProRataOfSomething(amount: real, part: real, whole: real)
    requires part > 0.0 && whole > 0.0
    ensures ProRata(amount, part, whole) == 0.0 <==> amount == 0.0
  {
    var x := part / whole;
    assert x * whole == part;
    assert x != 0.0;
  }

  /** Where the ledger conserves money, an exit keeps that up exactly when it is perpetual or carries no
      funding: a spot exit takes its funding off the result, but not off the cash. */
  lemma ExitConserves(t: Tables, id: nat, x: ExitFill, orderId: nat)
    requires Books(t) && Conserves(t) && CanExit(t, id, x)
    ensures Conserves(RecordExit(t, id, x, orderId)) <==>
            t.positions[id].key.itype == Perpetual || t.positions[id].fundingCost == 0.0
  {
    var p := t.positions[id];
    var fees, quantity := EntryFees(t.trades, id), EntryQuantity(t.trades, id);
    var sold := ExitTrade(p, x, fees, quantity, orderId, id);
    BookedAt(t.trades, t.positions, id);
    ExitSums(t.trades, id, p, x, orderId);
    ExitKeepsBooks(t, id, x, orderId);
    GlobalSums(t.trades, sold);
    ProRataOfSomething(p.fundingCost, CloseQuantity(p, x), p.quantity);
    assert SpotFundingOf(sold) == if p.key.itype == Spot then FundingAlloc(p, x) else 0.0;
    hide AllBooked, Booked, CashBalance, SumBy, UnallocatedFees, ExitedPosition, ExitTrade, ProRata, SpotFundingOf, CloseQuantity;
  }

  // ---------- Entries ----------

  /** A filled entry: a positive quantity at a price that is not negative, and no spot short. */
  ghost predicate CanEnter(e: EntryFill) {
    e.quantity > 0.0 && e.price >= 0.0 && (e.key.itype == Spot ==> e.side == Long)
  }

  lemma EntryIsBooked(trades: seq<TradeRow>, e: EntryFill, orderId: nat, id: nat)
    requires (forall x :: x in trades ==> x.positionId < id) && CanEnter(e)
    ensures var x := EntryTrade(e, orderId, id);
            && Booked(trades + [x], id, EnteredPosition(e))
            && Unallocated(trades + [x], id) == e.fee
            && x.cashFlow + Locked(EnteredPosition(e)) == -e.fee
  {
    NoTradesYet(trades, id);
    NothingCharged(trades, id, EnteredPosition(e));
    ChargedAppend(trades, EntryTrade(e, orderId, id), id, EnteredPosition(e));
    OwnSums(trades, EntryTrade(e, orderId, id), id);
    ProRataOfAll(e.fee, e.quantity);
  }

  /** The books of the other positions do not notice a trade of a new one. */
  lemma NewPositionLeavesOthers(t: Tables, p: PositionRow, x: TradeRow)
    requires AllBooked(t.trades, t.positions) && x.positionId == |t.positions|
    requires Booked(t.trades + [x], |t.positions|, p)
    ensures AllBooked(t.trades + [x], t.positions + [p])
    ensures SumTo(|t.positions|, UnallocatedIn(t.trades + [x])) == SumTo(|t.positions|, UnallocatedIn(t.trades))
  {
    var n := |t.positions|;
    hide Booked, Unallocated;
    forall i: nat | i < n
      ensures Booked(t.trades + [x], i, (t.positions + [p])[i])
      ensures UnallocatedIn(t.trades)(i) == UnallocatedIn(t.trades + [x])(i)
    {
      BookedAt(t.trades, t.positions, i);
      OthersStayBooked(t.trades, x, i, t.positions[i]);
    }
    BookedEverywhere(t.trades + [x], t.positions + [p]);
    SumToCongruence(n, UnallocatedIn(t.trades), UnallocatedIn(t.trades + [x]));
  }

  /** A new position whose trade pays for what it locks keeps the books. */
  lemma NewPositionBalances(t: Tables, p: PositionRow, x: TradeRow)
    requires Books(t) && x.positionId == |t.positions|
    requires Booked(t.trades + [x], |t.positions|, p)
    requires x.cashFlow + Locked(p) == x.realizedPnl - Unallocated(t.trades + [x], |t.positions|) + SpotFundingOf(x)
    ensures Books(t.(positions := t.positions + [p], trades := t.trades + [x]))
  {
    hide Booked, AllBooked, Locked, Unallocated, SpotFundingOf, SumBy;
    NewPositionLeavesOthers(t, p, x);
    GlobalSums(t.trades, x);
    SumByAppend(t.positions, p, Locked);
  }

  lemma EntryKeepsBooks(t: Tables, e: EntryFill, orderId: nat)
    requires Books(t) && CanEnter(e)
    ensures Books(RecordEntry(t, e, orderId))
  {
    EntryIsBooked(t.trades, e, orderId, |t.positions|);
    hide EnteredPosition, Booked, AllBooked, Balanced, Locked, Unallocated, CanEnter;
    NewPositionBalances(t, EnteredPosition(e), EntryTrade(e, orderId, |t.positions|));
  }

  // ---------- Funding ----------

  lemma FundingKeepsBooks(t: Tables, id: nat, cost: real, at: int)
    requires Books(t) && id < |t.positions|
    ensures Books(RecordFunding(t, id, cost, at))
  {
    hide Booked, Balanced;
    var orderId := LatestTradeOrder(t.trades, id);
    if orderId.Some? {
      var p := t.positions[id];
      var x := FundingTrade(p, cost, orderId.value, id, at);
      BookedAt(t.trades, t.positions, id);
      FundingStaysBooked(t.trades, id, p, cost, x);
      OneTradeBalances(t, id, p.(fundingCost := p.fundingCost + cost), x);
    }
  }

  lemma FundingStaysBooked(trades: seq<TradeRow>, id: nat, p: PositionRow, cost: real, x: TradeRow)
    requires Booked(trades, id, p) && x.positionId == id && x.action == Funding
    ensures Booked(trades + [x], id, p.(fundingCost := p.fundingCost + cost))
    ensures Unallocated(trades + [x], id) == Unallocated(trades, id)
  {
    OwnSums(trades, x, id);
  }

  /** A booked position always has a trade, so a funding charge is never refused. */
  lemma {:induction false} BookedHasTrades(trades: seq<TradeRow>, id: nat)
    requires EntryQuantity(trades, id) != 0.0
    ensures LatestTradeOrder(trades, id).Some?
  {
    if trades[|trades| - 1].positionId != id {
      BookedHasTrades(trades[..|trades| - 1], id);
    }
  }

  // ---------- Repricing ----------

  lemma RepricedStaysBooked(trades: seq<TradeRow>, id: nat, p: PositionRow, prices: map<string, real>)
    requires Booked(trades, id, p)
    ensures Booked(trades, id, Reprice(p, prices))
  {
  }

  /** Rows that differ only in their mark leave the books as they are. */
  lemma RepricingKeepsBooks(t: Tables, prices: map<string, real>)
    requires Books(t)
    ensures Books(Recalculate(t, prices))
  {
    var positions := RepriceAll(t.positions, prices);
    forall i: nat | i < |positions|
      ensures Booked(t.trades, i, positions[i]) && Locked(positions[i]) == Locked(t.positions[i])
    {
      BookedAt(t.trades, t.positions, i);
      RepricedStaysBooked(t.trades, i, t.positions[i], prices);
    }
    BookedEverywhere(t.trades, positions);
    SumByCongruence(t.positions, Locked, positions, Locked);
  }

  // ---------- Equity ----------

  /** Money that a position closed with a remainder of at most 1e-12 still locks. */
  function DustOf(p: PositionRow): real {
    if p.status == Closed then Locked(p) else 0.0
  }

  /** At most 1e-12 times the entry price for each position that was closed with a remainder. */
  function DustAllowance(p: PositionRow): real {
    if p.status == Closed && p.entryNotional != 0.0 then DUST * p.avgEntryPrice else 0.0
  }

  lemma DustIsSmall(trades: seq<TradeRow>, id: nat, p: PositionRow)
    requires Booked(trades, id, p)
    ensures 0.0 <= DustOf(p) <= DustAllowance(p)
  {
    hide Charged, Unallocated, Outstanding, EntryFees, EntryQuantity, SumBy;
    if p.status == Closed {
      var l := Max(p.leverage, 1.0);
      AtMostDust(p.avgEntryPrice, Outstanding(trades, id), p.entryNotional);
      assert l >= 1.0 && (p.key.itype == Perpetual ==> p.collateral == p.entryNotional / l);
      hide Booked, Max;
      DividedIsSmaller(p.entryNotional, l);
    }
  }

  lemma AtMostDust(price: real, outstanding: real, notional: real)
    requires price >= 0.0 && 0.0 <= outstanding <= DUST && notional == price * outstanding
    ensures 0.0 <= notional <= DUST * price
    ensures outstanding == 0.0 ==> notional == 0.0
  {
    NonNegativeProduct(price, outstanding);
    NonNegativeProduct(price, DUST - outstanding);
  }

  lemma DividedIsSmaller(a: real, l: real)
    requires a >= 0.0 && l >= 1.0
    ensures 0.0 <= a / l <= a
  {
    var d := a / l;
    assert d * l == a;
    assert d >= 0.0;
    assert d * l - d == d * (l - 1.0);
  }

  lemma {:induction false} DustAddsUp(trades: seq<TradeRow>, positions: seq<PositionRow>)
    requires AllBooked(trades, positions)
    ensures 0.0 <= SumBy(positions, DustOf) <= SumBy(positions, DustAllowance)
  {
    if positions != [] {
      var n := |positions| - 1;
      DustAddsUp(trades, positions[..n]);
      DustIsSmall(trades, n, positions[n]);
    }
  }

  /** A marked position contributes what it locks and what it has gained. */
  lemma ContributionOf(trades: seq<TradeRow>, id: nat, p: PositionRow)
    requires Booked(trades, id, p)
    requires p.status == Open ==> p.unrealizedPnl == UnrealizedAt(p, p.currentPrice)
    ensures EquityContribution(p) == Locked(p) - DustOf(p) + OpenUnrealized(p)
  {
    if p.status == Open && p.key.itype == Spot {
      assert p.quantity * p.currentPrice == p.avgEntryPrice * p.quantity + (p.currentPrice - p.avgEntryPrice) * p.quantity;
    }
  }

  lemma {:induction false} ContributionsAddUp(trades: seq<TradeRow>, positions: seq<PositionRow>)
    requires AllBooked(trades, positions)
    requires forall p :: p in positions && p.status == Open ==> p.unrealizedPnl == UnrealizedAt(p, p.currentPrice)
    ensures SumBy(positions, EquityContribution) ==
            SumBy(positions, Locked) - SumBy(positions, DustOf) + SumBy(positions, OpenUnrealized)
  {
    if positions != [] {
      var n := |positions| - 1;
      ContributionsAddUp(trades, positions[..n]);
      ContributionOf(trades, n, positions[n]);
    }
  }

  /** After any recalculation the equity is the starting balance, plus what is realized and
      unrealized, less the entry fees not yet charged: short of that by exactly the dust, which is at
      most 1e-12 of an entry price for each position closed with a remainder. */
  lemma EquityIdentity(t: Tables, prices: map<string, real>)
    requires Books(t)
    ensures var r := Recalculate(t, prices);
            var s := r.portfolio;
            var ideal := s.startingBalance + s.realizedPnl + s.unrealizedPnl
                         - UnallocatedFees(r) + SumBy(r.trades, SpotFundingOf);
            && s.lastEquity == ideal - SumBy(r.positions, DustOf)
            && 0.0 <= SumBy(r.positions, DustOf) <= SumBy(r.positions, DustAllowance)
  {
    hide Booked, Locked, DustOf, DustAllowance, EquityContribution, OpenUnrealized, UnallocatedFees;
    RepricingKeepsBooks(t, prices);
    var r := Recalculate(t, prices);
    ContributionsAddUp(r.trades, r.positions);
    DustAddsUp(r.trades, r.positions);
  }

  lemma {:induction false} ExposureSplits(positions: seq<PositionRow>)
    ensures SumBy(positions, OpenGross) == SumBy(positions, LongExposure) + SumBy(positions, ShortExposure)
    ensures (forall p :: p in positions ==> OpenNotional(p) >= 0.0) ==>
              SumBy(positions, OpenNet) == SumBy(positions, LongExposure) - SumBy(positions, ShortExposure)
    ensures Abs(SumBy(positions, OpenNet)) <= SumBy(positions, OpenGross)
  {
    if positions != [] {
      var n := |positions| - 1;
      ExposureSplits(positions[..n]);
    }
  }

  lemma NotionalsAreNonNegative(positions: seq<PositionRow>)
    requires forall p :: p in positions && p.status == Open ==> p.quantity >= 0.0 && p.currentPrice >= 0.0
    ensures forall p :: p in positions ==> OpenNotional(p) >= 0.0
  {
  }

  /** Gross exposure is long plus short; net exposure is long minus short for prices that are not
      negative, and never beyond the gross. */
  lemma ExposureIdentity(t: Tables, prices: map<string, real>)
    ensures var r := Recalculate(t, prices);
            && r.portfolio.grossExposure == SumBy(r.positions, LongExposure) + SumBy(r.positions, ShortExposure)
            && Abs(r.portfolio.netExposure) <= r.portfolio.grossExposure
            && ((forall p :: p in r.positions && p.status == Open ==> p.quantity >= 0.0 && p.currentPrice >= 0.0) ==>
                  r.portfolio.netExposure == SumBy(r.positions, LongExposure) - SumBy(r.positions, ShortExposure))
  {
    hide RepriceAll, LongExposure, ShortExposure, EquityContribution, OpenGross, OpenNet, OpenUnrealized, OpenMargin, SumBy;
    var r := Recalculate(t, prices);
    ExposureSplits(r.positions);
    if forall p :: p in r.positions && p.status == Open ==> p.quantity >= 0.0 && p.currentPrice >= 0.0 {
      NotionalsAreNonNegative(r.positions);
    }
    hide OpenNotional;
  }

  /** An open position whose mark is zero is marked at its entry price by the next recalculation
      that brings no price for it: the one case in which recalculating again changes anything. */
  ghost predicate FallsBackToEntry(p: PositionRow) {
    p.status == Open && p.currentPrice == 0.0 && p.avgEntryPrice != 0.0
  }

  lemma RepriceTwice(p: PositionRow, prices: map<string, real>)
    ensures var once := Reprice(p, prices);
            Reprice(once, map[]) == once <==> !FallsBackToEntry(once)
  {
  }

  lemma TotalsTwice(t: Tables)
    ensures var once := t.(portfolio := Totals(t));
            Totals(once) == once.portfolio
  {
  }

  lemma RecalculationIsIdempotent(t: Tables, prices: map<string, real>)
    ensures var once := Recalculate(t, prices);
            Recalculate(once, map[]) == once <==> forall p :: p in once.positions ==> !FallsBackToEntry(p)
  {
    var positions := RepriceAll(t.positions, prices);
    var again := RepriceAll(positions, map[]);
    forall i | 0 <= i < |positions|
      ensures again[i] == positions[i] <==> !FallsBackToEntry(positions[i])
    {
      RepriceTwice(t.positions[i], prices);
    }
    assert again == positions <==> forall p :: p in positions ==> !FallsBackToEntry(p);
    TotalsTwice(t.(positions := positions));
  }

  /** The peak never falls and is never below the equity. */
  lemma PeakIsRunningMaximum(t: Tables, prices: map<string, real>)
    ensures var r := Recalculate(t, prices).portfolio;
            && r.peakEquity >= t.portfolio.peakEquity
            && r.peakEquity >= r.lastEquity
            && (r.peakEquity == t.portfolio.peakEquity || r.peakEquity == r.lastEquity)
  {
  }
}
