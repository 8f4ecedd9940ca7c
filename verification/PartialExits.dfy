/** Selling a position in pieces: what the pieces add up to, and what funding charges do to it. */
module PartialExits {
  import opened Common
  import opened Fees
  import opened Ledger
  import opened LedgerLaws

  datatype Piece = Piece(quantity: real, orderId: nat)

  /** How and when a position is sold: at one fill price, with proportional fees. */
  datatype Sale = Sale(price: real, feeBps: real, reason: ExitReason, at: int)

  function FillOf(sale: Sale, quantity: real): ExitFill {
    ExitFill(sale.price, quantity, CalculateFee(Notional(sale.price, quantity), sale.feeBps), sale.reason, sale.at)
  }

  function Quantity(pieces: seq<Piece>): real {
    if pieces == [] then 0.0 else Quantity(pieces[..|pieces| - 1]) + pieces[|pieces| - 1].quantity
  }

  function SellPieces(t: Tables, id: nat, sale: Sale, pieces: seq<Piece>): (r: Tables)
    requires id < |t.positions|
    ensures |r.positions| == |t.positions|
  {
    if pieces == [] then t
    else
      var last := pieces[|pieces| - 1];
      RecordExit(SellPieces(t, id, sale, pieces[..|pieces| - 1]), id, FillOf(sale, last.quantity), last.orderId)
  }

  /** Two sets of tables with the same positions, the same cash and results, and the same entry
      totals for position `id`: they differ only in how the exits are split into trades. */
  ghost predicate SameMoney(a: Tables, b: Tables, id: nat) {
    && a.positions == b.positions
    && SumBy(a.trades, CashFlowOf) == SumBy(b.trades, CashFlowOf)
    && SumBy(a.trades, RealizedOf) == SumBy(b.trades, RealizedOf)
    && EntryFees(a.trades, id) == EntryFees(b.trades, id)
    && EntryQuantity(a.trades, id) == EntryQuantity(b.trades, id)
  }

  lemma ExitRespectsSameMoney(a: Tables, b: Tables, id: nat, x: ExitFill, orderA: nat, orderB: nat)
    requires SameMoney(a, b, id) && id < |a.positions|
    ensures SameMoney(RecordExit(a, id, x, orderA), RecordExit(b, id, x, orderB), id)
  {
    var p := a.positions[id];
    var fees, quantity := EntryFees(a.trades, id), EntryQuantity(a.trades, id);
    var xa, xb := ExitTrade(p, x, fees, quantity, orderA, id), ExitTrade(p, x, fees, quantity, orderB, id);
    GlobalSums(a.trades, xa);
    GlobalSums(b.trades, xb);
    OwnSums(a.trades, xa, id);
    OwnSums(b.trades, xb, id);
  }

  /** What is left of an amount after a pro-rata part is itself shared pro rata. */
  lemma ProRataOfRest(amount: real, part: real, next: real, whole: real)
    requires 0.0 < part < whole
    ensures var rest := amount - ProRata(amount, part, whole);
            ProRata(rest, next, whole - part) == ProRata(amount, next, whole)
  {
    var left := whole - part;
    var u, v, w := part / whole, next / left, next / whole;
    assert u * whole == part && v * left == next && w * whole == next;
    var z := (amount - amount * u) * v - amount * w;
    assert z * whole == amount * (whole - u * whole) * v - amount * (w * whole);
    assert amount * (whole - u * whole) * v == amount * (left * v);
    assert z * whole == 0.0;
  }

  lemma ProRataAtMost(amount: real, part: real, whole: real)
    requires amount >= 0.0 && 0.0 <= part <= whole && whole > 0.0
    ensures 0.0 <= ProRata(amount, part, whole) <= amount
  {
    ProRataNonNegative(amount, part, whole);
    ProRataNonNegative(amount, whole - part, whole);
    ProRataSplits(amount, part, whole - part, whole);
    ProRataOfAll(amount, whole);
  }

  lemma ProRataPositive(amount: real, part: real, whole: real)
    requires amount > 0.0 && part > 0.0 && whole > 0.0
    ensures ProRata(amount, part, whole) > 0.0
  {
    var x := part / whole;
    assert x * whole == part;
    assert x > 0.0;
    assert amount * x > 0.0;
  }

  lemma ProRataNegated(amount: real, part: real, whole: real)
    ensures ProRata(-amount, part, whole) == -ProRata(amount, part, whole)
  {
  }

  lemma GrossSplits(direction: real, price: real, avg: real, q1: real, q2: real)
    ensures direction * (price - avg) * (q1 + q2) == direction * (price - avg) * q1 + direction * (price - avg) * q2
  {
  }

  /** Two pieces that a position can be sold in: the first leaves it open. */
  ghost predicate TwoPieces(t: Tables, id: nat, sale: Sale, q1: real, q2: real) {
    && Books(t) && id < |t.positions| && t.positions[id].status == Open
    && sale.price >= 0.0 && q1 > 0.0 && q2 > 0.0
    && q1 + q2 <= t.positions[id].quantity
    && t.positions[id].quantity - q1 > DUST
  }

  /** What the funding allocations of two pieces come to, against the allocation of one sale. */
  lemma FundingOfTwoPieces(p: PositionRow, sale: Sale, q1: real, q2: real, fees: real, quantity: real)
    requires p.quantity > 0.0 && q1 > 0.0 && q2 > 0.0 && q1 + q2 <= p.quantity && p.quantity - q1 > DUST
    ensures var first := ExitedPosition(p, FillOf(sale, q1), fees, quantity);
            var second := ExitedPosition(first, FillOf(sale, q2), fees, quantity);
            var whole := ExitedPosition(p, FillOf(sale, q1 + q2), fees, quantity);
            var paid := FundingAlloc(p, FillOf(sale, q1)) + FundingAlloc(first, FillOf(sale, q2));
            if p.fundingCost >= 0.0 then
              paid == FundingAlloc(p, FillOf(sale, q1 + q2)) && second.fundingCost == whole.fundingCost
            else
              paid > FundingAlloc(p, FillOf(sale, q1 + q2))
  {
    var f, q := p.fundingCost, p.quantity;
    var first := ExitedPosition(p, FillOf(sale, q1), fees, quantity);
    ProRataSplits(f, q1, q2, q);
    if f >= 0.0 {
      ProRataAtMost(f, q1, q);
      ProRataAtMost(f, q1 + q2, q);
      ProRataOfRest(f, q1, q2, q);
    } else {
      ProRataNegated(-f, q1, q);
      ProRataNegated(-f, q2, q);
      ProRataAtMost(-f, q1, q);
      ProRataPositive(-f, q2, q);
      assert first.fundingCost == 0.0;
      ProRataOfNothing(0.0, q2, q - q1);
    }
  }

  /** The margin that two pieces release is the margin that one sale releases. */
  lemma MarginOfTwoPieces(t: Tables, id: nat, sale: Sale, q1: real, q2: real)
    requires TwoPieces(t, id, sale, q1, q2)
    ensures var p, fees, quantity := t.positions[id], EntryFees(t.trades, id), EntryQuantity(t.trades, id);
            var first := ExitedPosition(p, FillOf(sale, q1), fees, quantity);
            var second := ExitedPosition(first, FillOf(sale, q2), fees, quantity);
            && CollateralRelease(p, FillOf(sale, q1)) + CollateralRelease(first, FillOf(sale, q2)) ==
               CollateralRelease(p, FillOf(sale, q1 + q2))
            && second.collateral == ExitedPosition(p, FillOf(sale, q1 + q2), fees, quantity).collateral
  {
    var p := t.positions[id];
    BookedAt(t.trades, t.positions, id);
    ExitMargin(t.trades, id, p, FillOf(sale, q1));
    ExitMargin(t.trades, id, p, FillOf(sale, q1 + q2));
    ProRataOfRest(p.collateral, q1, q2, p.quantity);
    ProRataSplits(p.collateral, q1, q2, p.quantity);
  }

  lemma FeesOfTwoPieces(sale: Sale, q1: real, q2: real)
    requires sale.price >= 0.0 && q1 > 0.0 && q2 > 0.0
    ensures FillOf(sale, q1 + q2).fee == FillOf(sale, q1).fee + FillOf(sale, q2).fee
  {
    assert sale.price * (q1 + q2) == sale.price * q1 + sale.price * q2;
    FeeIsAdditive(Notional(sale.price, q1), Notional(sale.price, q2), sale.feeBps);
  }

  /** The quantities of two pieces, where the first leaves the position open. */
  lemma QuantitiesOfTwoPieces(p: PositionRow, sale: Sale, q1: real, q2: real, fees: real, quantity: real)
    requires q1 > 0.0 && q2 > 0.0 && q1 + q2 <= p.quantity && p.quantity - q1 > DUST && p.status == Open
    ensures var first := ExitedPosition(p, FillOf(sale, q1), fees, quantity);
            && first.status == Open && first.quantity == p.quantity - q1
            && first.key == p.key && first.side == p.side && first.avgEntryPrice == p.avgEntryPrice
            && CloseQuantity(p, FillOf(sale, q1)) == q1
            && CloseQuantity(first, FillOf(sale, q2)) == q2
            && CloseQuantity(p, FillOf(sale, q1 + q2)) == q1 + q2
            && RemainingQuantity(first, FillOf(sale, q2)) == RemainingQuantity(p, FillOf(sale, q1 + q2))
  {
  }

  /** The funding that two pieces allocate beyond what one sale allocates. */
  function ExtraFunding(p: PositionRow, sale: Sale, q1: real, q2: real, fees: real, quantity: real): real {
    FundingAlloc(p, FillOf(sale, q1))
    + FundingAlloc(ExitedPosition(p, FillOf(sale, q1), fees, quantity), FillOf(sale, q2))
    - FundingAlloc(p, FillOf(sale, q1 + q2))
  }

  lemma ResultsOfTwoPieces(p: PositionRow, sale: Sale, q1: real, q2: real, fees: real, quantity: real)
    requires sale.price >= 0.0 && q1 > 0.0 && q2 > 0.0
    requires q1 + q2 <= p.quantity && p.quantity - q1 > DUST && p.status == Open
    ensures var first := ExitedPosition(p, FillOf(sale, q1), fees, quantity);
            ExitRealized(p, FillOf(sale, q1), fees, quantity) + ExitRealized(first, FillOf(sale, q2), fees, quantity)
            + ExtraFunding(p, sale, q1, q2, fees, quantity) ==
            ExitRealized(p, FillOf(sale, q1 + q2), fees, quantity)
  {
    QuantitiesOfTwoPieces(p, sale, q1, q2, fees, quantity);
    GrossSplits(Direction(p.side), sale.price, p.avgEntryPrice, q1, q2);
    ProRataSplits(fees, q1, q2, quantity);
    FeesOfTwoPieces(sale, q1, q2);
  }

  lemma CashOfTwoPieces(t: Tables, id: nat, sale: Sale, q1: real, q2: real)
    requires TwoPieces(t, id, sale, q1, q2)
    ensures var p, fees, quantity := t.positions[id], EntryFees(t.trades, id), EntryQuantity(t.trades, id);
            var first := ExitedPosition(p, FillOf(sale, q1), fees, quantity);
            var extra := if IsSpotLong(p) then 0.0 else ExtraFunding(p, sale, q1, q2, fees, quantity);
            ExitCashFlow(p, FillOf(sale, q1)) + ExitCashFlow(first, FillOf(sale, q2)) + extra ==
            ExitCashFlow(p, FillOf(sale, q1 + q2))
  {
    hide ExitedPosition, CloseQuantity, ProRata, CalculateFee;
    var p, fees, quantity := t.positions[id], EntryFees(t.trades, id), EntryQuantity(t.trades, id);
    QuantitiesOfTwoPieces(p, sale, q1, q2, fees, quantity);
    FeesOfTwoPieces(sale, q1, q2);
    if IsSpotLong(p) {
      assert sale.price * (q1 + q2) == sale.price * q1 + sale.price * q2;
    } else {
      MarginOfTwoPieces(t, id, sale, q1, q2);
      GrossSplits(Direction(p.side), sale.price, p.avgEntryPrice, q1, q2);
    }
  }

  /** The rows of a position sold in two pieces and at once, apart from the funding. */
  lemma RowsOfTwoPieces(t: Tables, id: nat, sale: Sale, q1: real, q2: real)
    requires TwoPieces(t, id, sale, q1, q2)
    ensures var p, fees, quantity := t.positions[id], EntryFees(t.trades, id), EntryQuantity(t.trades, id);
            var first := ExitedPosition(p, FillOf(sale, q1), fees, quantity);
            var second := ExitedPosition(first, FillOf(sale, q2), fees, quantity);
            var whole := ExitedPosition(p, FillOf(sale, q1 + q2), fees, quantity);
            && second.(realizedPnl := 0.0, fundingCost := 0.0) == whole.(realizedPnl := 0.0, fundingCost := 0.0)
            && second.realizedPnl + ExtraFunding(p, sale, q1, q2, fees, quantity) == whole.realizedPnl
  {
    hide ProRata, CalculateFee;
    var p, fees, quantity := t.positions[id], EntryFees(t.trades, id), EntryQuantity(t.trades, id);
    QuantitiesOfTwoPieces(p, sale, q1, q2, fees, quantity);
    ResultsOfTwoPieces(p, sale, q1, q2, fees, quantity);
    MarginOfTwoPieces(t, id, sale, q1, q2);
  }

  /** What one exit does to the rows and the sums. */
  lemma AfterExit(t: Tables, id: nat, x: ExitFill, orderId: nat)
    requires id < |t.positions|
    ensures var p, fees, quantity := t.positions[id], EntryFees(t.trades, id), EntryQuantity(t.trades, id);
            var r := RecordExit(t, id, x, orderId);
            && r.positions == t.positions[id := ExitedPosition(p, x, fees, quantity)]
            && SumBy(r.trades, CashFlowOf) == SumBy(t.trades, CashFlowOf) + ExitCashFlow(p, x)
            && SumBy(r.trades, RealizedOf) == SumBy(t.trades, RealizedOf) + ExitRealized(p, x, fees, quantity)
            && EntryFees(r.trades, id) == fees && EntryQuantity(r.trades, id) == quantity
  {
    hide ExitedPosition, ExitCashFlow, ExitRealized, CloseQuantity;
    var p, fees, quantity := t.positions[id], EntryFees(t.trades, id), EntryQuantity(t.trades, id);
    var trade := ExitTrade(p, x, fees, quantity, orderId, id);
    OwnSums(t.trades, trade, id);
    GlobalSums(t.trades, trade);
  }

  /** Selling a position in two pieces at one price gives the rows, the cash and the results of
      selling it at once exactly when no funding credit is pending: a pending credit is lost by the
      clamp at zero of the first piece. */
  lemma TwoPiecesAreOne(t: Tables, id: nat, sale: Sale, q1: real, q2: real, o1: nat, o2: nat, o: nat)
    requires TwoPieces(t, id, sale, q1, q2)
    ensures SameMoney(RecordExit(RecordExit(t, id, FillOf(sale, q1), o1), id, FillOf(sale, q2), o2),
                      RecordExit(t, id, FillOf(sale, q1 + q2), o), id)
            <==> t.positions[id].fundingCost >= 0.0
  {
    var p, fees, quantity := t.positions[id], EntryFees(t.trades, id), EntryQuantity(t.trades, id);
    FundingOfTwoPieces(p, sale, q1, q2, fees, quantity);
    ResultsOfTwoPieces(p, sale, q1, q2, fees, quantity);
    CashOfTwoPieces(t, id, sale, q1, q2);
    RowsOfTwoPieces(t, id, sale, q1, q2);
    hide RecordExit, ExitedPosition, ExitCashFlow, ExitRealized, FundingAlloc, FillOf, SumBy, EntryFees, EntryQuantity;
    AfterExit(t, id, FillOf(sale, q1), o1);
    AfterExit(RecordExit(t, id, FillOf(sale, q1), o1), id, FillOf(sale, q2), o2);
    AfterExit(t, id, FillOf(sale, q1 + q2), o);
  }

  /** Pieces that leave the position open until the last one. */
  ghost predicate SoldInPieces(p: PositionRow, pieces: seq<Piece>) {
    && pieces != []
    && (forall k :: 0 <= k < |pieces| ==> pieces[k].quantity > 0.0)
    && (forall k :: 0 <= k < |pieces| ==> p.quantity - Quantity(pieces[..k]) > DUST)
    && Quantity(pieces) <= p.quantity
  }

  lemma {:induction false} QuantityIsPositive(pieces: seq<Piece>)
    requires pieces != [] && forall k :: 0 <= k < |pieces| ==> pieces[k].quantity > 0.0
    ensures Quantity(pieces) > 0.0
  {
    if |pieces| > 1 {
      QuantityIsPositive(pieces[..|pieces| - 1]);
    }
  }

  /** Splitting a sale into any pieces at one price changes nothing. */
  lemma {:induction false} PiecesAreOneSale(t: Tables, id: nat, sale: Sale, pieces: seq<Piece>, orderId: nat)
    requires Books(t) && id < |t.positions| && t.positions[id].status == Open
    requires t.positions[id].fundingCost >= 0.0 && sale.price >= 0.0
    requires SoldInPieces(t.positions[id], pieces)
    ensures SameMoney(SellPieces(t, id, sale, pieces),
                      RecordExit(t, id, FillOf(sale, Quantity(pieces)), orderId), id)
  {
    hide RecordExit, FillOf, Books;
    var n := |pieces| - 1;
    var init, last := pieces[..n], pieces[n];
    if n == 0 {
      assert Quantity(init) == 0.0;
      assert SellPieces(t, id, sale, init) == t;
      SameAsItself(t, id);
      ExitRespectsSameMoney(t, t, id, FillOf(sale, last.quantity), last.orderId, orderId);
    } else {
      assert forall k :: 0 <= k < n ==> init[..k] == pieces[..k];
      assert pieces[..n] == init;
      QuantityIsPositive(init);
      PiecesAreOneSale(t, id, sale, init, orderId);
      var once := RecordExit(t, id, FillOf(sale, Quantity(init)), orderId);
      ExitRespectsSameMoney(SellPieces(t, id, sale, init), once, id, FillOf(sale, last.quantity), last.orderId, orderId);
      TwoPiecesAreOne(t, id, sale, Quantity(init), last.quantity, orderId, orderId, orderId);
    }
  }

  lemma SameAsItself(t: Tables, id: nat)
    ensures SameMoney(t, t, id)
  {
  }

  /** A close that exhausts the position exactly releases all of its margin. The entry fees that its exit
      trades were charged with, over all of them, sum exactly to the entry fees, and the realized result
      of the position is that of its exit trades. */
  lemma ExactCloseReleasesEverything(t: Tables, id: nat, x: ExitFill, orderId: nat)
    requires Books(t) && CanExit(t, id, x) && x.filled >= t.positions[id].quantity
    ensures var after := RecordExit(t, id, x, orderId);
            var p := after.positions[id];
            && p.status == Closed
            && p.collateral == 0.0 && p.entryNotional == 0.0 && Locked(p) == 0.0
            && Outstanding(after.trades, id) == 0.0
            && Charged(after.trades, id, p) == EntryFees(after.trades, id)
            && p.realizedPnl == SumBy(after.trades, ExitRealizedOf(id))
  {
    var p := t.positions[id];
    BookedAt(t.trades, t.positions, id);
    ExitSums(t.trades, id, p, x, orderId);
    ExitMargin(t.trades, id, p, x);
    ExitStaysBooked(t.trades, id, p, x, orderId);
    var after := RecordExit(t, id, x, orderId);
    assert Outstanding(after.trades, id) == 0.0;
    ProRataOfNothing(EntryFees(after.trades, id), 0.0, EntryQuantity(after.trades, id));
    NothingLocked(Max(p.leverage, 1.0));
  }

  lemma NothingLocked(l: real)
    requires l >= 1.0
    ensures 0.0 / l == 0.0
  {
  }

  /** A funding charge is paid when it is recorded and again when the position is closed: on a
      perpetual position the cash falls by twice the charge. A spot close does not pay it again, but
      subtracts it from the result again. */
  lemma FundingIsDebitedTwice(t: Tables, id: nat, cost: real, at: int, x: ExitFill, orderId: nat)
    requires Books(t) && CanExit(t, id, x) && x.filled >= t.positions[id].quantity
    ensures var charged := RecordExit(RecordFunding(t, id, cost, at), id, x, orderId);
            var plain := RecordExit(t, id, x, orderId);
            var twice := t.positions[id].key.itype == Perpetual;
            && SumBy(charged.trades, CashFlowOf) == SumBy(plain.trades, CashFlowOf) - (if twice then 2.0 else 1.0) * cost
            && SumBy(charged.trades, RealizedOf) == SumBy(plain.trades, RealizedOf) - 2.0 * cost
  {
    hide ExitedPosition, ExitRealized, ExitCashFlow, ProRata, Balanced, Booked, AllBooked, Notional, SumBy;
    var p := t.positions[id];
    BookedAt(t.trades, t.positions, id);
    assert p.quantity > 0.0 by {
      BookedMargin(t.trades, id, p);
    }
    BookedHasTrades(t.trades, id);
    var f := FundingTrade(p, cost, LatestTradeOrder(t.trades, id).value, id, at);
    var p' := p.(fundingCost := p.fundingCost + cost);
    var fees, quantity := EntryFees(t.trades, id), EntryQuantity(t.trades, id);
    OwnSums(t.trades, f, id);
    GlobalSums(t.trades, f);
    GlobalSums(t.trades, ExitTrade(p, x, fees, quantity, orderId, id));
    GlobalSums(t.trades + [f], ExitTrade(p', x, fees, quantity, orderId, id));
    ExitWithExtraFunding(p, cost, x, fees, quantity);
  }

  lemma ExitWithExtraFunding(p: PositionRow, cost: real, x: ExitFill, fees: real, quantity: real)
    requires p.quantity > 0.0 && x.filled >= p.quantity
    ensures var charged := p.(fundingCost := p.fundingCost + cost);
            && ExitRealized(charged, x, fees, quantity) == ExitRealized(p, x, fees, quantity) - cost
            && ExitCashFlow(charged, x) == ExitCashFlow(p, x) - if IsSpotLong(p) then 0.0 else cost
  {
    ProRataOfAll(p.fundingCost, p.quantity);
    ProRataOfAll(p.fundingCost + cost, p.quantity);
  }
}
